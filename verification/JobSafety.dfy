/** What every interleaving keeps: one provider call per job, conserved reservations, and a consistent queue. */
module JobSafety {
  import opened Prelude
  import opened JobStore
  import opened JobMachine

  // ----- the records

  /** At most one charged attempt, and the phase says whether it was charged. No lease outlasts its reference, and usage
      is noted only with a verdict. */
  ghost predicate JobOk(j: Job) {
    && j.attempts <= 1
    && (j.phase in {Ready, Leased} ==> j.attempts == 0)
    && (j.phase in {Calling, Succeeded} ==> j.attempts == 1)
    && j.reservedTokens == MAX_TOKENS * j.attempts && j.reservedCost == MAX_COST * j.attempts
    && (j.lease.Some? <==> j.phase in {Leased, Calling})
    && (j.lease.Some? ==> j.lease.value.until <= j.reference.expiresAt)
    && (!Finished(j) ==> j.usage.None?)
    && (j.reason.Some? <==> j.phase == Dead)
    && (j.reason == Some(Cancelled) ==> j.attempts == 0)
    && (j.reason == Some(ProviderUnconfirmed) ==> j.attempts == 1)
  }

  /** A job has a caller exactly when its attempt is charged, and a calling job is leased to its caller. */
  ghost predicate CallersOk(jobs: map<Id, Job>, callers: map<Id, Token>) {
    && (forall id :: id in callers <==> id in jobs && jobs[id].attempts == 1)
    && (forall id :: id in jobs && id in callers && jobs[id].phase == Calling && jobs[id].lease.Some? ==>
          jobs[id].lease.value.token == callers[id])
  }

  predicate OtherJob(a: Slot, b: Slot) { a.jobId != b.jobId }

  ghost predicate QueueOk(control: Control, jobs: map<Id, Job>) {
    && |control.active| <= MAX_ACTIVE && Distinct(control.active)
    && (forall id :: id in control.active <==> id in jobs && !Finished(jobs[id]))
    && |control.slots| <= MAX_SLOTS && Pairwise(control.slots, OtherJob)
    && (forall s :: s in control.slots ==> s.jobId in jobs && !Finished(jobs[s.jobId]) && jobs[s.jobId].phase != Ready)
    && (forall s :: s in control.slots && jobs[s.jobId].lease.Some? ==>
          jobs[s.jobId].lease.value == Lease(s.token, s.until))
    && (forall id :: id in jobs && jobs[id].lease.Some? ==>
          Slot(id, jobs[id].lease.value.token, jobs[id].lease.value.until) in control.slots)
  }

  predicate HasSlot(slots: seq<Slot>, id: Id) {
    exists k :: 0 <= k < |slots| && slots[k].jobId == id
  }

  /** No slot outlasts the reference of its job, and a call without a verdict keeps its slot. */
  ghost predicate SlotsOk(slots: seq<Slot>, jobs: map<Id, Job>) {
    && (forall s :: s in slots && s.jobId in jobs ==> s.until <= jobs[s.jobId].reference.expiresAt)
    && (forall id :: id in jobs && Uncertain(jobs[id]) ==> HasSlot(slots, id))
  }

  /** Everything reserved since the start is accounted for by one charged attempt each. */
  ghost predicate TotalsOk(totals: Totals, base: Totals, callers: map<Id, Token>) {
    totals.tokens == base.tokens + MAX_TOKENS * |callers| && totals.cost == base.cost + MAX_COST * |callers|
  }

  ghost predicate StoreOk(store: Store, callers: map<Id, Token>, base: Totals) {
    && (forall id :: id in store.jobs ==> JobOk(store.jobs[id]))
    && CallersOk(store.jobs, callers)
    && QueueOk(store.control, store.jobs) && SlotsOk(store.control.slots, store.jobs)
    && TotalsOk(store.totals, base, callers)
  }

  // ----- the writes

  predicate LeasedTo(job: Job, token: Token) {
    job.lease.Some? && job.lease.value.token == token
  }

  /** What a participant had checked, on the records it read, before sending a write. */
  predicate WriteOk(w: Write, token: Token) {
    match w.change
    case Enqueue(_, _) => w.prior.job.None? && |w.prior.control.active| < MAX_ACTIVE
    case Release(reference, _) =>
      PreCall(w.prior.job) && (w.prior.job.Some? ==> reference == w.prior.job.value.reference)
    case TakeLease(t, until, now) =>
      && t == token && w.prior.job.Some? && w.prior.job.value.phase in {Ready, Leased}
      && (w.prior.job.value.lease.None? || w.prior.job.value.lease.value.until <= now)
      && until <= w.prior.job.value.reference.expiresAt
      && |Unexpired(w.prior.control.slots, w.id, now)| < MAX_SLOTS
    case Reserve => w.prior.job.Some? && LeasedTo(w.prior.job.value, token)
    case Renew => w.prior.job.Some? && w.prior.job.value.phase == Calling
    case Succeed(_) => w.prior.job.Some? && w.prior.job.value.phase == Calling && LeasedTo(w.prior.job.value, token)
    case Retry(_) => w.prior.job.Some? && w.prior.job.value.phase == Leased
    case End(reason, observed) =>
      && w.prior.job.Some? && w.prior.job.value.phase in {Ready, Leased, Calling}
      && reason != Cancelled && (reason == ProviderUnconfirmed ==> w.prior.job.value.phase == Calling && observed.None?)
      && (w.prior.job.value.phase == Calling && reason != ProviderUnconfirmed ==> LeasedTo(w.prior.job.value, token))
    case Reconcile(_) =>
      && w.prior.job.Some? && w.prior.job.value.phase == Dead
      && w.prior.job.value.reason == Some(ProviderUnconfirmed)
  }

  function NextCallers(callers: map<Id, Token>, w: Write, token: Token): map<Id, Token> {
    if w.change.Reserve? then callers[w.id := token] else callers
  }

  /** A reservation is only ever written by a token that has not reserved before. */
  ghost predicate Lands(store: Store, callers: map<Id, Token>, w: Write, token: Token) {
    && Applicable(w) && WriteOk(w, token) && Read(store, w.id) == w.prior
    && (w.change.Reserve? ==> !(w.id in callers && callers[w.id] == token))
  }

  lemma NextJobOk(w: Write, token: Token)
    requires Applicable(w) && WriteOk(w, token) && (w.prior.job.Some? ==> JobOk(w.prior.job.value))
    requires w.change.Reserve? ==> w.prior.job.value.phase == Leased
    ensures JobOk(NextJob(w))
    ensures w.change.Reserve? ==> w.prior.job.value.attempts == 0 && NextJob(w).attempts == 1
                                  && NextJob(w).lease.Some? && NextJob(w).lease.value.token == token
    ensures !w.change.Reserve? ==> NextJob(w).attempts == if w.prior.job.Some? then w.prior.job.value.attempts else 0
    ensures !w.change.Reserve? && NextJob(w).phase == Calling ==>
              w.prior.job.Some? && NextJob(w).lease == w.prior.job.value.lease
              && w.prior.job.value.phase == Calling
  {
  }

  /** A lease holder that has not reserved finds its job merely leased. */
  lemma ReservesLeased(store: Store, callers: map<Id, Token>, w: Write, token: Token)
    requires CallersOk(store.jobs, callers) && Lands(store, callers, w, token) && w.change.Reserve?
    requires JobOk(store.jobs[w.id])
    ensures w.prior.job.value.phase == Leased
  {
  }

  lemma NextCallersOk(jobs: map<Id, Job>, callers: map<Id, Token>, id: Id, next: Job, token: Token, reserved: bool)
    requires CallersOk(jobs, callers)
    requires reserved ==>
               id in jobs && jobs[id].attempts == 0 && next.attempts == 1 && next.lease.Some?
               && next.lease.value.token == token
    requires !reserved ==> next.attempts == if id in jobs then jobs[id].attempts else 0
    requires !reserved && next.phase == Calling ==>
               id in jobs && next.lease == jobs[id].lease && jobs[id].phase == Calling
    ensures CallersOk(jobs[id := next], if reserved then callers[id := token] else callers)
    ensures reserved ==> |callers[id := token]| == |callers| + 1
  {
    var jobs', callers' := jobs[id := next], if reserved then callers[id := token] else callers;
    forall x ensures x in callers' <==> x in jobs' && jobs'[x].attempts == 1 {
      if x != id { assert x in callers <==> x in jobs && jobs[x].attempts == 1; }
    }
    if reserved { assert callers[id := token].Keys == callers.Keys + {id}; }
  }

  lemma DropSlot(slots: seq<Slot>, id: Id)
    requires Pairwise(slots, OtherJob)
    ensures Pairwise(WithoutSlot(slots, id), OtherJob)
  {
    FilterPairwise(slots, (s: Slot) => s.jobId != id, OtherJob);
  }

  /** A job whose call was never confirmed keeps its place in the queue and its slot. */
  lemma QuarantineQueue(control: Control, jobs: map<Id, Job>, id: Id, next: Job, revision: nat)
    requires QueueOk(control, jobs) && id in jobs && !Finished(jobs[id]) && jobs[id].phase != Ready
    requires next.lease.None? && next.phase == Dead && next.reason == Some(ProviderUnconfirmed)
    ensures QueueOk(control.(revision := revision), jobs[id := next])
  {
  }

  /** A job that finishes leaves the queue together with its slot. */
  lemma FinishingQueue(control: Control, jobs: map<Id, Job>, id: Id, next: Job, revision: nat)
    requires QueueOk(control, jobs) && next.lease.None? && Finished(next)
    ensures QueueOk(control.(revision := revision, active := WithoutActive(control.active, id),
                             slots := WithoutSlot(control.slots, id)),
                    jobs[id := next])
  {
    DropSlot(control.slots, id);
    FilterDistinct(control.active, (x: Id) => x != id);
    var active, slots := WithoutActive(control.active, id), WithoutSlot(control.slots, id);
    assert forall x :: x in active <==> x in control.active && x != id;
    assert forall x :: x in slots <==> x in control.slots && x.jobId != id;
    FinishingQueueFrom(control, jobs, id, next, revision, active, slots);
  }

  lemma FinishingQueueFrom(control: Control, jobs: map<Id, Job>, id: Id, next: Job, revision: nat, active: seq<Id>,
                           slots: seq<Slot>)
    requires QueueOk(control, jobs) && next.lease.None? && Finished(next)
    requires |active| <= |control.active| && Distinct(active) && |slots| <= |control.slots| && Pairwise(slots, OtherJob)
    requires forall x :: x in active <==> x in control.active && x != id
    requires forall x :: x in slots <==> x in control.slots && x.jobId != id
    ensures QueueOk(control.(revision := revision, active := active, slots := slots), jobs[id := next])
  {
  }

  lemma RetryQueue(control: Control, jobs: map<Id, Job>, id: Id, next: Job, revision: nat)
    requires QueueOk(control, jobs) && id in jobs && !Finished(jobs[id]) && next.phase == Ready && next.lease.None?
    ensures QueueOk(control.(revision := revision, slots := WithoutSlot(control.slots, id)), jobs[id := next])
  {
    DropSlot(control.slots, id);
  }

  /** The old lease of a job has run out, so its slot is dropped before the new one is added. */
  lemma LeaseQueue(control: Control, jobs: map<Id, Job>, id: Id, next: Job, revision: nat, now: nat)
    requires QueueOk(control, jobs) && id in jobs && JobOk(jobs[id]) && jobs[id].phase in {Ready, Leased}
    requires jobs[id].lease.None? || jobs[id].lease.value.until <= now
    requires next.phase == Leased && next.lease.Some?
    requires |Unexpired(control.slots, id, now)| < MAX_SLOTS
    ensures var kept := Unexpired(control.slots, id, now);
            QueueOk(control.(revision := revision,
                             slots := kept + [Slot(id, next.lease.value.token, next.lease.value.until)]),
                    jobs[id := next])
  {
    var kept := Unexpired(control.slots, id, now);
    FilterPairwise(control.slots, (s: Slot) => s.until > now || s.jobId != id, OtherJob);
    forall s | s in kept ensures s in control.slots && s.jobId != id {}
    LeaseQueueFrom(control, jobs, id, next, revision, kept);
  }

  lemma LeaseQueueFrom(control: Control, jobs: map<Id, Job>, id: Id, next: Job, revision: nat, kept: seq<Slot>)
    requires QueueOk(control, jobs) && id in jobs && !Finished(jobs[id]) && next.phase == Leased && next.lease.Some?
    requires |kept| < MAX_SLOTS && Pairwise(kept, OtherJob)
    requires forall s :: s in kept <==> s in control.slots && s.jobId != id
    ensures QueueOk(control.(revision := revision,
                             slots := kept + [Slot(id, next.lease.value.token, next.lease.value.until)]),
                    jobs[id := next])
  {
  }

  /** Changes that leave a queued job queued, with the lease it had. */
  lemma SteadyQueue(control: Control, jobs: map<Id, Job>, id: Id, next: Job, revision: nat)
    requires QueueOk(control, jobs) && id in jobs && !Finished(jobs[id]) && jobs[id].lease == next.lease
    requires !Finished(next) && next.phase != Ready
    ensures QueueOk(control.(revision := revision), jobs[id := next])
  {
  }

  lemma EnqueueQueue(control: Control, jobs: map<Id, Job>, id: Id, next: Job, revision: nat)
    requires QueueOk(control, jobs) && id !in jobs && next.phase == Ready && next.lease.None?
             && |control.active| < MAX_ACTIVE
    ensures QueueOk(control.(revision := revision, active := control.active + [id]), jobs[id := next])
  {
  }

  /** The prior records, as far as the queue is concerned. */
  ghost predicate Queued(w: Write, token: Token, jobs: map<Id, Job>) {
    && Applicable(w) && WriteOk(w, token) && QueueOk(w.prior.control, jobs)
    && w.prior.job == (if w.id in jobs then Some(jobs[w.id]) else None)
    && (w.prior.job.Some? ==> JobOk(w.prior.job.value))
    && (w.change.Reserve? ==> w.prior.job.value.phase == Leased)
  }

  lemma EndQueueOk(w: Write, token: Token, jobs: map<Id, Job>)
    requires Queued(w, token, jobs) && w.change.End?
    ensures QueueOk(NextControl(w), jobs[w.id := NextJob(w)])
  {
    if w.change.reason == ProviderUnconfirmed {
      QuarantineQueue(w.prior.control, jobs, w.id, NextJob(w), w.prior.control.revision + 1);
    } else {
      FinishingQueue(w.prior.control, jobs, w.id, NextJob(w), w.prior.control.revision + 1);
    }
  }

  /** A finishing write takes its job off the queue and frees its slot. */
  lemma FinishWrites(w: Write)
    requires Applicable(w) && (w.change.Succeed? || w.change.Reconcile? || w.change.Release?)
    ensures NextControl(w) == Finishing(w.prior.control, w.id)
    ensures Finished(NextJob(w)) && NextJob(w).lease.None?
  {
  }

  function Finishing(control: Control, id: Id): Control {
    control.(revision := control.revision + 1, active := WithoutActive(control.active, id),
             slots := WithoutSlot(control.slots, id))
  }

  lemma FinishQueueOk(w: Write, token: Token, jobs: map<Id, Job>)
    requires Queued(w, token, jobs) && (w.change.Succeed? || w.change.Reconcile? || w.change.Release?)
    ensures QueueOk(NextControl(w), jobs[w.id := NextJob(w)])
  {
    FinishWrites(w);
    FinishingQueue(w.prior.control, jobs, w.id, NextJob(w), w.prior.control.revision + 1);
  }

  lemma RetryQueueOk(w: Write, token: Token, jobs: map<Id, Job>)
    requires Queued(w, token, jobs) && w.change.Retry?
    ensures QueueOk(NextControl(w), jobs[w.id := NextJob(w)])
  {
    RetryQueue(w.prior.control, jobs, w.id, NextJob(w), w.prior.control.revision + 1);
  }

  lemma LeaseQueueOk(w: Write, token: Token, jobs: map<Id, Job>)
    requires Queued(w, token, jobs) && w.change.TakeLease?
    ensures QueueOk(NextControl(w), jobs[w.id := NextJob(w)])
  {
    LeaseQueue(w.prior.control, jobs, w.id, NextJob(w), w.prior.control.revision + 1, w.change.now);
  }

  lemma SteadyQueueOk(w: Write, token: Token, jobs: map<Id, Job>)
    requires Queued(w, token, jobs) && (w.change.Enqueue? || w.change.Reserve? || w.change.Renew?)
    ensures QueueOk(NextControl(w), jobs[w.id := NextJob(w)])
  {
    if w.change.Enqueue? {
      EnqueueQueue(w.prior.control, jobs, w.id, NextJob(w), w.prior.control.revision + 1);
    } else {
      SteadyQueue(w.prior.control, jobs, w.id, NextJob(w), w.prior.control.revision + 1);
    }
  }

  lemma NextQueueOk(w: Write, token: Token, jobs: map<Id, Job>)
    requires Queued(w, token, jobs)
    ensures QueueOk(NextControl(w), jobs[w.id := NextJob(w)])
  {
    match w.change
    case Retry(_) => RetryQueueOk(w, token, jobs);
    case TakeLease(_, _, _) => LeaseQueueOk(w, token, jobs);
    case Enqueue(_, _) => SteadyQueueOk(w, token, jobs);
    case Reserve => SteadyQueueOk(w, token, jobs);
    case Renew => SteadyQueueOk(w, token, jobs);
    case End(_, _) => EndQueueOk(w, token, jobs);
    case Succeed(_) => FinishQueueOk(w, token, jobs);
    case Reconcile(_) => FinishQueueOk(w, token, jobs);
    case Release(_, _) => FinishQueueOk(w, token, jobs);
  }

  /** What a write may do to the slots: others stay, and one of its own job is as good as before, or is new. */
  lemma SlotsFollow(slots: seq<Slot>, next: seq<Slot>, jobs: map<Id, Job>, id: Id, job: Job)
    requires SlotsOk(slots, jobs)
    requires forall s :: s in next && s.jobId != id ==> s in slots
    requires forall s :: s in slots && s.jobId != id ==> s in next
    requires forall s :: s in next && s.jobId == id ==> s.until <= job.reference.expiresAt
    requires Uncertain(job) ==> HasSlot(next, id)
    ensures SlotsOk(next, jobs[id := job])
  {
    forall x | x in jobs[id := job] && Uncertain(jobs[id := job][x]) ensures HasSlot(next, x) {
      if x != id {
        assert HasSlot(slots, x);
        var k :| 0 <= k < |slots| && slots[k].jobId == x;
        assert slots[k] in next;
        var j :| 0 <= j < |next| && next[j] == slots[k];
      }
    }
  }

  /** Which slots a write leaves, and which it adds. */
  lemma WrittenSlots(w: Write)
    requires Applicable(w)
    ensures forall s :: s in NextControl(w).slots && s.jobId != w.id <==> s in w.prior.control.slots && s.jobId != w.id
    ensures forall s :: s in NextControl(w).slots && s.jobId == w.id ==>
              (s in w.prior.control.slots && !w.change.Release?)
              || (w.change.TakeLease? && s == Slot(w.id, w.change.token, w.change.until))
    ensures w.change.End? && w.change.reason == ProviderUnconfirmed ==> NextControl(w).slots == w.prior.control.slots
  {
  }

  lemma SameReference(w: Write)
    requires Applicable(w) && !w.change.Release? && !w.change.Enqueue?
    ensures NextJob(w).reference == w.prior.job.value.reference
    ensures Uncertain(NextJob(w)) ==>
              (w.change.End? && w.change.reason == ProviderUnconfirmed) || Uncertain(w.prior.job.value)
  {
  }

  /** A calling job holds the slot of its lease. */
  lemma CallingHasSlot(control: Control, jobs: map<Id, Job>, id: Id)
    requires QueueOk(control, jobs) && id in jobs && JobOk(jobs[id]) && jobs[id].phase == Calling
    ensures HasSlot(control.slots, id)
  {
    var s := Slot(id, jobs[id].lease.value.token, jobs[id].lease.value.until);
    var k :| 0 <= k < |control.slots| && control.slots[k] == s;
  }

  lemma WrittenSlotsOk(w: Write, token: Token, jobs: map<Id, Job>)
    requires Queued(w, token, jobs) && SlotsOk(w.prior.control.slots, jobs)
    ensures SlotsOk(NextControl(w).slots, jobs[w.id := NextJob(w)])
  {
    var slots, next := w.prior.control.slots, NextControl(w).slots;
    WrittenSlots(w);
    if !w.change.Release? && !w.change.Enqueue? { SameReference(w); }
    if Uncertain(NextJob(w)) {
      assert w.change.End? && w.change.reason == ProviderUnconfirmed;
      CallingHasSlot(w.prior.control, jobs, w.id);
    }
    SlotsFollow(slots, next, jobs, w.id, NextJob(w));
  }

  /** What a write that takes effect makes of the jobs and their callers. */
  lemma CommitJobs(store: Store, callers: map<Id, Token>, base: Totals, w: Write, token: Token)
    requires StoreOk(store, callers, base) && Lands(store, callers, w, token)
    ensures JobOk(NextJob(w)) && Queued(w, token, store.jobs)
    ensures CallersOk(store.jobs[w.id := NextJob(w)], NextCallers(callers, w, token))
    ensures |NextCallers(callers, w, token)| == |callers| + if w.change.Reserve? then 1 else 0
  {
    assert w.id in store.jobs ==> JobOk(store.jobs[w.id]);
    if w.change.Reserve? { ReservesLeased(store, callers, w, token); }
    NextJobOk(w, token);
    NextCallersOk(store.jobs, callers, w.id, NextJob(w), token, w.change.Reserve?);
  }

  lemma TotalsFollow(store: Store, callers: map<Id, Token>, base: Totals, w: Write, token: Token)
    requires TotalsOk(store.totals, base, callers) && w.prior.totals == store.totals
    requires |NextCallers(callers, w, token)| == |callers| + if w.change.Reserve? then 1 else 0
    ensures TotalsOk(NextTotals(w), base, NextCallers(callers, w, token))
  {
  }

  lemma JobReplaced(jobs: map<Id, Job>, id: Id, next: Job)
    requires JobOk(next) && forall x :: x in jobs ==> JobOk(jobs[x])
    ensures var after := jobs[id := next]; forall x :: x in after ==> JobOk(after[x])
  {
  }

  /** Any write that takes effect keeps the records in order. */
  lemma CommitKeeps(store: Store, callers: map<Id, Token>, base: Totals, w: Write, token: Token)
    requires StoreOk(store, callers, base) && Lands(store, callers, w, token)
    ensures StoreOk(Commit(store, w).value, NextCallers(callers, w, token), base)
  {
    CommitJobs(store, callers, base, w, token);
    JobReplaced(store.jobs, w.id, NextJob(w));
    NextQueueOk(w, token, store.jobs);
    WrittenSlotsOk(w, token, store.jobs);
    TotalsFollow(store, callers, base, w, token);
  }

  /** A recovery finishes a job and leaves its charge. */
  lemma RecoveredOk(store: Store, id: Id, now: nat)
    requires id in store.jobs && JobOk(store.jobs[id])
    requires if id in store.control.active then Recoverable(store, id, now) else Finished(store.jobs[id])
    ensures var next := RecoverAll(store).jobs[id];
            && JobOk(next) && Finished(next) && next.attempts == store.jobs[id].attempts && next.lease.None?
            && next.phase != Calling
  {
  }

  lemma FinishedCallers(jobs: map<Id, Job>, next: map<Id, Job>, callers: map<Id, Token>)
    requires CallersOk(jobs, callers) && next.Keys == jobs.Keys
    requires forall id :: id in next ==> next[id].attempts == jobs[id].attempts && next[id].phase != Calling
    ensures CallersOk(next, callers)
  {
  }

  /** Without an unfinished job, nothing need be in the queue. */
  lemma EmptyQueue(control: Control, jobs: map<Id, Job>)
    requires control.active == [] && control.slots == []
    requires forall id :: id in jobs ==> Finished(jobs[id]) && jobs[id].lease.None?
    ensures QueueOk(control, jobs) && SlotsOk(control.slots, jobs)
  {
  }

  /** Retiring the whole queue keeps the records in order; it charges and refunds nothing. */
  lemma RecoverKeeps(store: Store, callers: map<Id, Token>, base: Totals, now: nat)
    requires StoreOk(store, callers, base)
    requires forall k :: 0 <= k < |store.control.active| ==> Recoverable(store, store.control.active[k], now)
    ensures StoreOk(RecoverAll(store), callers, base)
    ensures forall id :: id in RecoverAll(store).jobs ==> Finished(RecoverAll(store).jobs[id])
    ensures RecoverAll(store).totals == store.totals
  {
    var next := RecoverAll(store);
    forall id | id in next.jobs
      ensures JobOk(next.jobs[id]) && Finished(next.jobs[id]) && next.jobs[id].attempts == store.jobs[id].attempts
      && next.jobs[id].lease.None? && next.jobs[id].phase != Calling
    {
      RecoveredOk(store, id, now);
    }
    FinishedCallers(store.jobs, next.jobs, callers);
    EmptyQueue(next.control, next.jobs);
  }
}
