/** The enqueue requests of one expected context on top of the job protocol: the durable jobs they look at are the
    protocol's own records, and an enqueue is the protocol's own write. */
module EnqueuedJobs {
  import opened Prelude
  import S = JobStore
  import J = JobMachine
  import P = JobProtocol
  import Q = JobSafety
  import E = DurableEnqueue

  /** What the comparable authority of a job's reference stands for. */
  datatype Content = Content(subject: nat, kernelJob: nat, authority: E.Authority)
  datatype Codec = Codec(read: nat -> Content, write: Content -> nat)

  ghost predicate RoundTrip(codec: Codec) {
    forall c :: codec.read(codec.write(c)) == c
  }

  /** The identifiers of deliveries, how references are read, and the context the requests expect. */
  datatype Setting = Setting(delivery: nat -> nat, codec: Codec, expected: E.Expected)

  function PhaseOf(phase: S.Phase): E.Phase {
    match phase
    case Ready => E.Ready
    case Leased => E.Leased
    case Calling => E.Calling
    case Succeeded => E.Succeeded
    case Dead => E.Dead
  }

  /** A job record as a request reads it. */
  function View(codec: Codec, id: nat, job: S.Job): E.Durable {
    var c := codec.read(job.reference.authority);
    E.Durable(E.Reference(id, c.subject, c.kernelJob, c.authority, job.reference.expiresAt), PhaseOf(job.phase))
  }

  datatype Joint = Joint(bridge: E.Machine, jobs: J.Machine)

  datatype Event =
    | Bridge(side: E.Event)
    | Work(work: J.Event)
    | Enqueue(token: E.Token, now: nat, worker: S.Token, delivered: bool, acked: bool)

  /** The jobs whose record one step of the protocol may change. */
  function Touched(m: J.Machine, e: J.Event): seq<nat> {
    match e
    case Recover(_) => m.store.control.active
    case Land(token, _, _, _, _) =>
      if token in m.workers && J.HasWrite(m.workers[token].stage) then [m.workers[token].stage.write.id] else []
    case _ => []
  }

  /** The requests see the records as they are now. */
  function Seeing(x: Setting, d: E.Machine, m: J.Machine, ids: seq<nat>): E.Machine {
    if ids == [] then d
    else
      var n := |ids| - 1;
      var before := Seeing(x, d, m, ids[..n]);
      if ids[n] in m.store.jobs then
        E.Step(x.delivery, x.expected, before, E.Journal(ids[n], View(x.codec, ids[n], m.store.jobs[ids[n]])))
      else before
  }

  function WorkStep(x: Setting, p: Joint, e: J.Event): Joint {
    var m := J.StepMachine(p.jobs, e);
    Joint(Seeing(x, p.bridge, m, Touched(p.jobs, e)), m)
  }

  /** An enqueue reads the records and sends its one write, which may be lost, refused, or applied unacknowledged. */
  function Submitted(m: J.Machine, id: nat, reference: S.Reference, now: nat, worker: S.Token, delivered: bool,
                     acked: bool): J.Machine {
    if worker in m.workers then m
    else J.StepMachine(J.StepMachine(m, J.Submit(worker, id, reference, now)),
                       J.Land(worker, delivered, acked, J.OtherFault, now))
  }

  function ReferenceFor(x: Setting, q: E.Request, now: nat): S.Reference
    requires q.stage.Enqueueing? && E.HasRecord(q.stage)
  {
    var r := q.stage.record;
    S.Reference(x.codec.write(Content(q.subject, r.job.value.id, E.AuthorityOf(r))), now + E.LIFETIME_MS)
  }

  predicate Asking(d: E.Machine, token: E.Token) {
    token in d.requests && d.requests[token].stage.Enqueueing? && E.HasRecord(d.requests[token].stage)
  }

  function EnqueueStep(x: Setting, p: Joint, token: E.Token, now: nat, worker: S.Token, delivered: bool,
                       acked: bool): Joint
    requires Asking(p.bridge, token)
  {
    var q := p.bridge.requests[token];
    var id := x.delivery(q.stage.record.job.value.id);
    var m := Submitted(p.jobs, id, ReferenceFor(x, q, now), now, worker, delivered, acked);
    Joint(E.Step(x.delivery, x.expected, p.bridge,
                 E.Enqueue(token, now, id !in p.jobs.store.jobs && id in m.store.jobs)), m)
  }

  function Step(x: Setting, p: Joint, e: Event): Joint {
    match e
    case Bridge(side) =>
      if side.Journal? || side.Enqueue? then p
      else p.(bridge := E.Step(x.delivery, x.expected, p.bridge, side))
    case Work(work) => WorkStep(x, p, work)
    case Enqueue(token, now, worker, delivered, acked) =>
      if Asking(p.bridge, token) then EnqueueStep(x, p, token, now, worker, delivered, acked) else p
  }

  function Start(record: E.Record, totals: S.Totals): Joint {
    Joint(E.Initial(record, map[]), J.Initial(totals))
  }

  function Run(x: Setting, p: Joint, events: seq<Event>): Joint
    decreases |events|
  {
    if events == [] then p else Step(x, Run(x, p, events[..|events| - 1]), events[|events| - 1])
  }

  // ----- the two sides stay in step

  /** The requests see exactly the protocol's records. */
  ghost predicate Linked(codec: Codec, d: E.Machine, m: J.Machine) {
    && (forall id :: id in d.jobs <==> id in m.store.jobs)
    && forall id :: id in m.store.jobs ==> d.jobs[id] == View(codec, id, m.store.jobs[id])
  }

  ghost predicate JointOk(x: Setting, base: S.Totals, p: Joint) {
    && E.MachineOk(x.delivery, x.expected, p.bridge) && P.MachineOk(p.jobs, base)
    && Linked(x.codec, p.bridge, p.jobs)
  }

  lemma OnlyTouched(m: J.Machine, e: J.Event)
    ensures var next := J.StepMachine(m, e);
            && m.store.jobs.Keys <= next.store.jobs.Keys
            && forall id :: id in next.store.jobs && id !in Touched(m, e) ==>
                 id in m.store.jobs && next.store.jobs[id] == m.store.jobs[id]
  {
  }

  /** What the requests see after they have followed the records of these jobs. */
  lemma {:induction false} SeeingGives(x: Setting, d: E.Machine, m: J.Machine, ids: seq<nat>)
    ensures var next := Seeing(x, d, m, ids);
            && next == d.(jobs := next.jobs, held := next.held)
            && (forall id :: id in next.jobs <==> id in d.jobs || (id in ids && id in m.store.jobs))
            && (forall id :: id in ids && id in m.store.jobs ==> next.jobs[id] == View(x.codec, id, m.store.jobs[id]))
            && (forall id :: id in d.jobs && !(id in ids && id in m.store.jobs) ==> next.jobs[id] == d.jobs[id])
            && (forall h :: h in next.held ==>
                  h in d.held || (h.0 in m.store.jobs && h.1 == View(x.codec, h.0, m.store.jobs[h.0])))
  {
    if ids != [] {
      var n := |ids| - 1;
      SeeingGives(x, d, m, ids[..n]);
      assert ids == ids[..n] + [ids[n]];
    }
  }

  lemma {:induction false} SeeingKeeps(x: Setting, d: E.Machine, m: J.Machine, ids: seq<nat>)
    requires E.MachineOk(x.delivery, x.expected, d)
    ensures E.MachineOk(x.delivery, x.expected, Seeing(x, d, m, ids))
  {
    if ids != [] {
      var n := |ids| - 1;
      SeeingKeeps(x, d, m, ids[..n]);
      if ids[n] in m.store.jobs {
        E.StepKeeps(x.delivery, x.expected, Seeing(x, d, m, ids[..n]),
                    E.Journal(ids[n], View(x.codec, ids[n], m.store.jobs[ids[n]])));
      }
    }
  }

  lemma WorkKeeps(x: Setting, base: S.Totals, p: Joint, e: J.Event)
    requires JointOk(x, base, p)
    ensures JointOk(x, base, WorkStep(x, p, e))
  {
    var m, ids := J.StepMachine(p.jobs, e), Touched(p.jobs, e);
    P.StepMachineKeeps(p.jobs, base, e);
    SeeingKeeps(x, p.bridge, m, ids);
    OnlyTouched(p.jobs, e);
    SeeingGives(x, p.bridge, m, ids);
  }

  function Fresh(reference: S.Reference, now: nat): S.Job {
    S.Job(1, reference, S.Ready, None, 0, 0, now, 0, 0, None, false, None)
  }

  /** An enqueue adds its job, freshly queued, or leaves the job records alone. */
  lemma SubmittedGives(m: J.Machine, id: nat, reference: S.Reference, now: nat, worker: S.Token, delivered: bool,
                       acked: bool)
    ensures var next := Submitted(m, id, reference, now, worker, delivered, acked);
            next.store.jobs == m.store.jobs
            || (id !in m.store.jobs
                && next.store.jobs == m.store.jobs[id := Fresh(reference, now)])
  {
    if worker !in m.workers {
      var sent := J.StepMachine(m, J.Submit(worker, id, reference, now));
      assert sent.store == m.store;
      if worker in sent.workers {
        assert sent.workers[worker].stage == J.Closing(S.Write(id, S.Read(m.store, id), S.Enqueue(reference, now)));
      }
    }
  }

  lemma SubmittedKeeps(m: J.Machine, base: S.Totals, id: nat, reference: S.Reference, now: nat, worker: S.Token,
                       delivered: bool, acked: bool)
    requires P.MachineOk(m, base)
    ensures P.MachineOk(Submitted(m, id, reference, now, worker, delivered, acked), base)
  {
    if worker !in m.workers {
      var sent := J.StepMachine(m, J.Submit(worker, id, reference, now));
      P.StepMachineKeeps(m, base, J.Submit(worker, id, reference, now));
      P.StepMachineKeeps(sent, base, J.Land(worker, delivered, acked, J.OtherFault, now));
    }
  }

  /** What a request enqueues is what it then sees of the new record. */
  function Asked(x: Setting, q: E.Request, now: nat): E.Durable
    requires q.stage.Enqueueing? && E.HasRecord(q.stage)
  {
    var r := q.stage.record;
    E.Durable(E.Reference(x.delivery(r.job.value.id), q.subject, r.job.value.id, E.AuthorityOf(r),
                          now + E.LIFETIME_MS), E.Ready)
  }

  lemma FreshIsAsked(x: Setting, q: E.Request, now: nat)
    requires RoundTrip(x.codec) && q.stage.Enqueueing? && E.HasRecord(q.stage)
    ensures View(x.codec, x.delivery(q.stage.record.job.value.id), Fresh(ReferenceFor(x, q, now), now))
            == Asked(x, q, now)
  {
    var r := q.stage.record;
    var c := Content(q.subject, r.job.value.id, E.AuthorityOf(r));
    assert x.codec.read(x.codec.write(c)) == c;
  }

  lemma AskedGives(x: Setting, d: E.Machine, token: E.Token, now: nat, permitted: bool)
    requires Asking(d, token)
    ensures var q := d.requests[token];
            var id := x.delivery(q.stage.record.job.value.id);
            var next := E.Step(x.delivery, x.expected, d, E.Enqueue(token, now, permitted));
            if permitted && id !in d.jobs
            then next.jobs == d.jobs[id := Asked(x, q, now)] && next.held == d.held + {(id, Asked(x, q, now))}
            else next.jobs == d.jobs && next.held == d.held
  {
  }

  lemma EnqueueLinks(x: Setting, p: Joint, token: E.Token, now: nat, worker: S.Token, delivered: bool, acked: bool)
    requires RoundTrip(x.codec) && Linked(x.codec, p.bridge, p.jobs) && Asking(p.bridge, token)
    ensures var next := EnqueueStep(x, p, token, now, worker, delivered, acked);
            && Linked(x.codec, next.bridge, next.jobs)
            && forall h :: h in next.bridge.held ==> h in p.bridge.held || SeenIn(x, next, h)
  {
    var q := p.bridge.requests[token];
    var id := x.delivery(q.stage.record.job.value.id);
    var m := Submitted(p.jobs, id, ReferenceFor(x, q, now), now, worker, delivered, acked);
    SubmittedGives(p.jobs, id, ReferenceFor(x, q, now), now, worker, delivered, acked);
    FreshIsAsked(x, q, now);
    AskedGives(x, p.bridge, token, now, id !in p.jobs.store.jobs && id in m.store.jobs);
  }

  lemma EnqueueKeeps(x: Setting, base: S.Totals, p: Joint, token: E.Token, now: nat, worker: S.Token, delivered: bool,
                     acked: bool)
    requires RoundTrip(x.codec) && JointOk(x, base, p) && Asking(p.bridge, token)
    ensures JointOk(x, base, EnqueueStep(x, p, token, now, worker, delivered, acked))
  {
    var q := p.bridge.requests[token];
    var id := x.delivery(q.stage.record.job.value.id);
    var m := Submitted(p.jobs, id, ReferenceFor(x, q, now), now, worker, delivered, acked);
    SubmittedKeeps(p.jobs, base, id, ReferenceFor(x, q, now), now, worker, delivered, acked);
    E.StepKeeps(x.delivery, x.expected, p.bridge,
                E.Enqueue(token, now, id !in p.jobs.store.jobs && id in m.store.jobs));
    EnqueueLinks(x, p, token, now, worker, delivered, acked);
  }

  /** A record as a request held it is the protocol's record now. */
  ghost predicate SeenIn(x: Setting, p: Joint, h: (nat, E.Durable)) {
    h.0 in p.jobs.store.jobs && h.1 == View(x.codec, h.0, p.jobs.store.jobs[h.0])
  }

  /** No other step of a request touches the records. */
  lemma BridgeLeaves(x: Setting, d: E.Machine, e: E.Event)
    requires !e.Journal? && !e.Enqueue?
    ensures var next := E.Step(x.delivery, x.expected, d, e); next.jobs == d.jobs && next.held == d.held
  {
  }

  lemma StepKeeps(x: Setting, base: S.Totals, p: Joint, e: Event)
    requires RoundTrip(x.codec) && JointOk(x, base, p)
    ensures JointOk(x, base, Step(x, p, e))
    ensures forall h :: h in Step(x, p, e).bridge.held ==> h in p.bridge.held || SeenIn(x, Step(x, p, e), h)
    ensures p.jobs.store.jobs.Keys <= Step(x, p, e).jobs.store.jobs.Keys
  {
    match e
    case Bridge(side) =>
      if !side.Journal? && !side.Enqueue? {
        E.StepKeeps(x.delivery, x.expected, p.bridge, side);
        BridgeLeaves(x, p.bridge, side);
      }
    case Work(work) =>
      WorkKeeps(x, base, p, work);
      OnlyTouched(p.jobs, work);
      SeeingGives(x, p.bridge, J.StepMachine(p.jobs, work), Touched(p.jobs, work));
    case Enqueue(token, now, worker, delivered, acked) =>
      if Asking(p.bridge, token) {
        EnqueueKeeps(x, base, p, token, now, worker, delivered, acked);
        EnqueueLinks(x, p, token, now, worker, delivered, acked);
        var q := p.bridge.requests[token];
        SubmittedGives(p.jobs, x.delivery(q.stage.record.job.value.id), ReferenceFor(x, q, now), now, worker, delivered,
                       acked);
      }
  }

  // ----- whole runs

  lemma {:induction false} RunKeeps(x: Setting, record: E.Record, totals: S.Totals, events: seq<Event>)
    requires RoundTrip(x.codec)
    ensures JointOk(x, totals, Run(x, Start(record, totals), events))
    decreases |events|
  {
    if events == [] {
      P.Reachable(totals, []);
      E.RunKeeps(x.delivery, x.expected, E.Initial(record, map[]), []);
    } else {
      var n := |events| - 1;
      RunKeeps(x, record, totals, events[..n]);
      StepKeeps(x, totals, Run(x, Start(record, totals), events[..n]), events[n]);
    }
  }

  /** After the first k events of the run, the record was as it is held. */
  ghost predicate WasThere(x: Setting, start: Joint, events: seq<Event>, k: nat, h: (nat, E.Durable)) {
    k <= |events| && SeenIn(x, Run(x, start, events[..k]), h)
  }

  lemma LastStepHolds(x: Setting, record: E.Record, totals: S.Totals, events: seq<Event>, h: (nat, E.Durable))
    requires RoundTrip(x.codec) && h in Run(x, Start(record, totals), events).bridge.held
    ensures events != []
    ensures h in Run(x, Start(record, totals), events[..|events| - 1]).bridge.held
            || SeenIn(x, Run(x, Start(record, totals), events), h)
  {
    assert events != [];
    var n := |events| - 1;
    RunKeeps(x, record, totals, events[..n]);
    StepKeeps(x, totals, Run(x, Start(record, totals), events[..n]), events[n]);
  }

  lemma {:induction false} HeldWasThere(x: Setting, record: E.Record, totals: S.Totals, events: seq<Event>,
                                        h: (nat, E.Durable)) returns (k: nat)
    requires RoundTrip(x.codec) && h in Run(x, Start(record, totals), events).bridge.held
    ensures WasThere(x, Start(record, totals), events, k, h)
    decreases |events|
  {
    LastStepHolds(x, record, totals, events, h);
    if SeenIn(x, Run(x, Start(record, totals), events), h) {
      k := |events|;
      assert events[..k] == events;
    } else {
      var n := |events| - 1;
      k := HeldWasThere(x, record, totals, events[..n], h);
      assert events[..n][..k] == events[..k];
    }
  }

  /** A receipt is given only for a record of the protocol as it was at some moment of the run, and at that moment the
      job was in the queue, or had succeeded. */
  lemma ReceiptIsForQueuedJob(x: Setting, record: E.Record, totals: S.Totals, events: seq<Event>, t: E.Token)
    returns (k: nat)
    requires RoundTrip(x.codec)
    requires var p := Run(x, Start(record, totals), events);
             t in p.bridge.requests && p.bridge.requests[t].stage.Receipted?
    ensures k <= |events|
    ensures var a := Run(x, Start(record, totals), events).bridge.requests[t].stage.receipt;
            var store := Run(x, Start(record, totals), events[..k]).jobs.store;
            && a.jobId in store.jobs && a.seen == View(x.codec, a.jobId, store.jobs[a.jobId])
            && (a.jobId in store.control.active || store.jobs[a.jobId].phase == S.Succeeded)
  {
    RunKeeps(x, record, totals, events);
    var p := Run(x, Start(record, totals), events);
    assert E.RequestOk(x.delivery, x.expected, p.bridge, p.bridge.requests[t]);
    var a := p.bridge.requests[t].stage.receipt;
    k := HeldWasThere(x, record, totals, events, (a.jobId, a.seen));
    RunKeeps(x, record, totals, events[..k]);
  }

  /** The job that these requests are about: the one a receipt names, or one that a request has created. */
  ghost predicate Theirs(d: E.Machine, id: nat) {
    id in d.created
    || exists t :: t in d.requests && d.requests[t].stage.Receipted? && d.requests[t].stage.receipt.jobId == id
  }

  /** They are all about one job. */
  lemma TheirsIsOne(x: Setting, d: E.Machine, a: nat, b: nat)
    requires E.MachineOk(x.delivery, x.expected, d) && Theirs(d, a) && Theirs(d, b)
    ensures a == b
  {
    NamedByRecord(x, d, a);
    NamedByRecord(x, d, b);
  }

  lemma NamedByRecord(x: Setting, d: E.Machine, id: nat)
    requires E.MachineOk(x.delivery, x.expected, d) && Theirs(d, id)
    ensures x.expected.control + 1 in d.past && d.past[x.expected.control + 1].job.Some?
    ensures id == x.delivery(d.past[x.expected.control + 1].job.value.id)
  {
    if id !in d.created {
      var t :| t in d.requests && d.requests[t].stage.Receipted? && d.requests[t].stage.receipt.jobId == id;
      assert E.RequestOk(x.delivery, x.expected, d, d.requests[t]);
    }
  }

  /** All the requests for one expected context together cause at most one provider call: whatever job one of them has
      created or been given a receipt for, it is the same job, and it is sent at most once. */
  lemma OneCallPerContext(x: Setting, record: E.Record, totals: S.Totals, events: seq<Event>, i: nat, j: nat)
    requires RoundTrip(x.codec)
    requires i < j < |Run(x, Start(record, totals), events).jobs.calls|
    ensures var p := Run(x, Start(record, totals), events);
            !(Theirs(p.bridge, p.jobs.calls[i].id) && Theirs(p.bridge, p.jobs.calls[j].id))
  {
    RunKeeps(x, record, totals, events);
    var p := Run(x, Start(record, totals), events);
    P.CallsApart(p.jobs, totals, i, j);
    if Theirs(p.bridge, p.jobs.calls[i].id) && Theirs(p.bridge, p.jobs.calls[j].id) {
      TheirsIsOne(x, p.bridge, p.jobs.calls[i].id, p.jobs.calls[j].id);
    }
  }
}
