/** The durable job records, and every change a participant of the protocol may write to them. */
module JobStore {
  import opened Prelude

  type Id = nat
  type Token = nat

  const MAX_TOKENS: nat := 18432
  const MAX_COST: nat := 10000
  const MAX_ACTIVE: nat := 64
  const MAX_SLOTS: nat := 2
  const MAX_ATTEMPTS: nat := 2
  const MAX_FAILURES: nat := 2
  const MAX_LIFETIME: nat := 300_000

  datatype Phase = Ready | Leased | Calling | Succeeded | Dead
  datatype Reason = Expired | Stale | RetryLimit | ProviderUnconfirmed | InvalidOutput | Budget | Disabled | Cancelled

  datatype Lease = Lease(token: Token, until: nat)
  datatype Slot = Slot(jobId: Id, token: Token, until: nat)

  /** The authority a job is bound to, as one comparable value, and when it expires. */
  datatype Reference = Reference(authority: nat, expiresAt: nat)

  datatype Job = Job(revision: nat, reference: Reference, phase: Phase, lease: Option<Lease>, attempts: nat,
                     failures: nat,
                     availableAt: nat, reservedTokens: nat, reservedCost: nat, usage: Option<nat>, proved: bool,
                     reason: Option<Reason>)

  datatype Control = Control(revision: nat, enabled: bool, active: seq<Id>, slots: seq<Slot>)
  datatype Totals = Totals(tokens: nat, cost: nat)
  datatype Store = Store(control: Control, totals: Totals, jobs: map<Id, Job>)
  datatype Snapshot = Snapshot(job: Option<Job>, control: Control, totals: Totals)

  function Read(store: Store, id: Id): Snapshot {
    Snapshot(if id in store.jobs then Some(store.jobs[id]) else None, store.control, store.totals)
  }

  datatype Change =
    | Enqueue(reference: Reference, now: nat)
    | TakeLease(token: Token, until: nat, now: nat)
    | Reserve
    | Renew
    | Succeed(used: nat)
    | Retry(availableAt: nat)
    | End(reason: Reason, observed: Option<nat>)
    | Reconcile(evidence: Option<nat>)
    | Release(reference: Reference, now: nat)

  datatype Write = Write(id: Id, prior: Snapshot, change: Change)

  function WithoutSlot(slots: seq<Slot>, id: Id): seq<Slot> {
    Filter(slots, (s: Slot) => s.jobId != id)
  }

  /** The slots that remain when a job takes a new lease: its own run-out slot is dropped. */
  function Unexpired(slots: seq<Slot>, id: Id, now: nat): seq<Slot> {
    Filter(slots, (s: Slot) => s.until > now || s.jobId != id)
  }

  function WithoutActive(active: seq<Id>, id: Id): seq<Id> {
    Filter(active, (x: Id) => x != id)
  }

  /** A finished job leaves the queue, unless its provider call was never confirmed. */
  function FinishControl(control: Control, id: Id, reason: Option<Reason>): Control {
    if reason == Some(ProviderUnconfirmed) then control
    else control.(active := WithoutActive(control.active, id), slots := WithoutSlot(control.slots, id))
  }

  function FinishJob(job: Job, phase: Phase, reason: Option<Reason>): Job {
    job.(phase := phase, reason := reason, lease := None)
  }

  /** The job as it was read, one revision on. */
  function Advanced(prior: Snapshot): Job
    requires prior.job.Some?
  {
    prior.job.value.(revision := prior.job.value.revision + 1)
  }

  function Charged(job: Job): Job {
    job.(phase := Calling, attempts := job.attempts + 1, reservedTokens := job.reservedTokens + MAX_TOKENS,
         reservedCost := job.reservedCost + MAX_COST)
  }

  function NextJob(w: Write): Job
    requires Applicable(w)
  {
    match w.change
    case Enqueue(reference, now) => Job(1, reference, Ready, None, 0, 0, now, 0, 0, None, false, None)
    case Release(reference, now) =>
      Job(if w.prior.job.Some? then w.prior.job.value.revision + 1 else 1, reference, Dead, None, 0,
          if w.prior.job.Some? then w.prior.job.value.failures else 0, now, 0, 0, None, false, Some(Cancelled))
    case TakeLease(token, until, _) => Advanced(w.prior).(phase := Leased, lease := Some(Lease(token, until)))
    case Reserve => Charged(Advanced(w.prior))
    case Renew => Advanced(w.prior)
    case Succeed(used) => FinishJob(Advanced(w.prior).(usage := Some(used)), Succeeded, None)
    case Retry(availableAt) =>
      Advanced(w.prior).(phase := Ready, lease := None, failures := w.prior.job.value.failures + 1,
                         availableAt := availableAt)
    case End(reason, observed) =>
      FinishJob(if observed.Some? then Advanced(w.prior).(usage := observed) else Advanced(w.prior), Dead, Some(reason))
    case Reconcile(evidence) => FinishJob(Advanced(w.prior).(proved := true, usage := evidence), Dead, Some(Stale))
  }

  function NextControl(w: Write): Control {
    var c := w.prior.control.(revision := w.prior.control.revision + 1);
    match w.change
    case Enqueue(_, _) => c.(active := c.active + [w.id])
    case TakeLease(token, until, now) =>
      c.(slots := Unexpired(c.slots, w.id, now) + [Slot(w.id, token, until)])
    case Reserve => c
    case Renew => c
    case Succeed(_) => FinishControl(c, w.id, None)
    case Retry(_) => c.(slots := WithoutSlot(c.slots, w.id))
    case End(reason, _) => FinishControl(c, w.id, Some(reason))
    case Reconcile(_) => FinishControl(c, w.id, Some(Stale))
    case Release(_, _) => FinishControl(c, w.id, Some(Cancelled))
  }

  function NextTotals(w: Write): Totals {
    if w.change.Reserve? then Totals(w.prior.totals.tokens + MAX_TOKENS, w.prior.totals.cost + MAX_COST)
       else w.prior.totals
  }

  predicate Applicable(w: Write) {
    w.change.Enqueue? || w.change.Release? || w.prior.job.Some?
  }

  /** The joined compare-and-swap: it takes effect only on exactly the records the writer had read. */
  function Commit(store: Store, w: Write): (r: Option<Store>)
    requires Applicable(w)
  {
    if Read(store, w.id) != w.prior then None
    else Some(Store(NextControl(w), NextTotals(w), store.jobs[w.id := NextJob(w)]))
  }

  /** A job that can no longer be dispatched, retried or released. */
  predicate Finished(job: Job) {
    job.phase.Succeeded? || (job.phase.Dead? && job.reason != Some(ProviderUnconfirmed))
  }

  predicate PreCall(job: Option<Job>) {
    job.None? || (job.value.phase in {Ready, Leased} && job.value.attempts == 0 && job.value.reservedTokens == 0)
  }

  /** A lease holder's check of what it has just read. */
  predicate Holds(prior: Snapshot, id: Id, token: Token, now: nat) {
    && prior.job.Some? && prior.job.value.lease.Some?
    && prior.job.value.lease.value.token == token && prior.job.value.lease.value.until > now
    && prior.control.enabled && prior.job.value.reference.expiresAt > now
    && exists k :: 0 <= k < |prior.control.slots| && prior.control.slots[k].jobId == id
                   && prior.control.slots[k].token == token && prior.control.slots[k].until > now
  }

  // ----- retiring a whole expired queue at once

  predicate Uncertain(job: Job) { job.phase == Dead && job.reason == Some(ProviderUnconfirmed) }

  /** A recovery touches only expired jobs: uncertain ones, and ones never charged whose lease has run out. */
  predicate Recoverable(store: Store, id: Id, now: nat) {
    && id in store.jobs && store.jobs[id].reference.expiresAt <= now
    && var job := store.jobs[id];
       if Uncertain(job) then
         job.attempts == 1 && job.usage.None? && job.lease.None?
         && exists k :: 0 <= k < |store.control.slots| && store.control.slots[k].jobId == id
                        && store.control.slots[k].until <= now
       else
         PreCall(Some(job)) && job.reservedCost == 0 && job.usage.None?
         && (job.lease.Some? ==> job.lease.value.until <= now)
  }

  function Recovered(job: Job): Job {
    if Uncertain(job) then job.(revision := job.revision + 1, reason := Some(Stale), proved := true)
    else job.(revision := job.revision + 1, phase := Dead, reason := Some(Expired), lease := None)
  }

  function RecoverAll(store: Store): Store {
    Store(store.control.(revision := store.control.revision + 1, enabled := false, active := [], slots := []),
          store.totals,
          map id | id in store.jobs :: if id in store.control.active then Recovered(store.jobs[id]) else store.jobs[id])
  }
}
