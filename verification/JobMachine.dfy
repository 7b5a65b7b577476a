/** Any number of workers, requesters and releasers acting on the shared job records, one atomic step at a time.
    Every clock reading is its own argument, so nothing below relies on clocks agreeing. */
module JobMachine {
  import opened Prelude
  import opened JobStore

  /** Why a worker gave up, as far as its failure handler tells causes apart. */
  datatype Fault = Retryable | Invalid | Rejected | OverBudget | OtherFault

  datatype Failure = Failure(called: bool, responded: bool, fault: Fault, observed: Option<nat>)

  /** Where one participant stands. A participant that stops for good simply takes no further step. */
  datatype Stage =
    | Leasing(write: Write)
    | Loading
    | Reserving(write: Write)
    | Reloading
    | Renewing(write: Write)
    | Confirming
    | Armed
    | Waiting
    | Responded(used: nat, round: nat)
    | Completing(write: Write, used: nat, round: nat)
    | Failing(failure: Failure)
    | Closing(write: Write)
    | Releasing(write: Write)
    | Observing
    | Done

  datatype Worker = Worker(id: Id, stage: Stage)

  datatype Call = Call(id: Id, token: Token)

  /** The records, the participants by their unique token, the dispatched provider calls, and the history
      needed to state the protocol: whose reservation committed for a job, which jobs were reported cancelled, how
      often a job was given back for a retry, and what usage each call was answered with. */
  datatype Machine = Machine(store: Store, workers: map<Token, Worker>, callers: map<Id, Token>, calls: seq<Call>,
                             reported: set<Id>, retried: multiset<Id>, answered: map<Token, nat>)

  datatype Event =
    | Submit(token: Token, id: Id, reference: Reference, now: nat)
    | Begin(token: Token, id: Id, span: nat, now: nat)
    | Load(token: Token, current: bool, fault: Fault, now: nat)
    | Land(token: Token, delivered: bool, acked: bool, fault: Fault, now: nat)
    | Dispatch(token: Token, allowed: bool)
    | Answer(token: Token, used: Option<nat>, responded: bool, fault: Fault)
    | Settle(token: Token, current: bool, fault: Fault, now: nat)
    | Catch(token: Token, now: nat)
    | Resolve(token: Token, id: Id, evidence: Option<nat>)
    | Cancel(token: Token, id: Id, reference: Reference, now: nat)
    | Observe(token: Token)
    | Switch(enabled: bool)
    | Recover(now: nat)

  function Go(m: Machine, token: Token, stage: Stage): Machine
    requires token in m.workers
  {
    m.(workers := m.workers[token := m.workers[token].(stage := stage)])
  }

  function Enter(m: Machine, token: Token, id: Id, stage: Stage): Machine {
    m.(workers := m.workers[token := Worker(id, stage)])
  }

  /** A failure before the call was made. */
  function Uncalled(fault: Fault): Stage {
    Failing(Failure(false, false, fault, None))
  }

  /** A lease never outlasts the reference of its job. */
  function LeaseEnd(reference: Reference, span: nat, now: nat): nat {
    if now + span < reference.expiresAt then now + span else reference.expiresAt
  }

  /** The first read of a delivery decides between ending the job, taking a lease and leaving it alone. */
  function BeginStage(prior: Snapshot, token: Token, id: Id, span: nat, now: nat): Stage {
    if prior.job.None? then Done
    else
      var job := prior.job.value;
      if job.phase in {Succeeded, Dead} || (job.lease.Some? && job.lease.value.until > now) then Done
      else if job.phase == Calling || job.reference.expiresAt <= now || !prior.control.enabled then
        Closing(Write(id, prior, End(if job.phase == Calling then ProviderUnconfirmed
                                     else if !prior.control.enabled then Disabled else Expired, None)))
      else if job.availableAt > now then Done
      else if |Unexpired(prior.control.slots, id, now)| >= MAX_SLOTS then Done
      else Leasing(Write(id, prior, TakeLease(token, LeaseEnd(job.reference, span, now), now)))
  }

  function LoadStage(prior: Snapshot, stage: Stage, token: Token, id: Id, current: bool, fault: Fault, now: nat): Stage
    requires stage.Loading? || stage.Reloading? || stage.Confirming?
  {
    if !current then Uncalled(fault)
    else if !Holds(prior, id, token, now) then Uncalled(OtherFault)
    else match stage
      case Loading =>
        if prior.job.value.attempts + 1 > MAX_ATTEMPTS then Uncalled(Invalid)
        else Reserving(Write(id, prior, JobStore.Reserve))
      case Reloading =>
        if prior.job.value.phase != Calling then Uncalled(OtherFault) else Renewing(Write(id, prior, Renew))
      case Confirming => Armed
  }

  /** How a participant goes on once its write has been sent: applied and acknowledged, refused, or unknown. */
  function LandStage(store: Store, w: Worker, token: Token, applied: bool, acked: bool, fault: Fault, now: nat): Stage
    requires w.stage.Leasing? || w.stage.Reserving? || w.stage.Renewing? || w.stage.Completing? || w.stage.Closing?
             || w.stage.Releasing?
  {
    match w.stage
    case Leasing(_) => if applied && acked then Loading else Done
    case Reserving(_) => if applied && acked then Reloading else Uncalled(fault)
    case Renewing(_) => if applied && acked then Confirming else Uncalled(fault)
    case Completing(_, used, round) =>
      if applied && acked then Done
      else if !acked then Failing(Failure(true, true, fault, Some(used)))
      else if round >= 2 then Failing(Failure(true, true, OtherFault, Some(used)))
      else if w.id in store.jobs && store.jobs[w.id].phase == Succeeded then Done
      else if Holds(Read(store, w.id), w.id, token, now) then Responded(used, round + 1)
      else Failing(Failure(true, true, OtherFault, Some(used)))
    case Closing(_) => Done
    case Releasing(_) => Observing
  }

  /** The delay before the next try doubles with every failure. */
  function Delay(failures: nat): nat {
    if failures == 0 then 500 else 2 * Delay(failures - 1)
  }

  function RetryAt(job: Job, now: nat): nat {
    if now + Delay(job.failures) < job.reference.expiresAt then now + Delay(job.failures) else job.reference.expiresAt
  }

  /** After a failure: read again, and write only if the lease is still the worker's own. */
  function CatchStage(prior: Snapshot, token: Token, id: Id, f: Failure, now: nat): Stage {
    if prior.job.None? then Done
    else
      var job := prior.job.value;
      if job.phase == Succeeded || job.lease.None? || job.lease.value.token != token then Done
      else if f.called || job.phase == Calling then
        Closing(Write(id, prior,
                      End(if !f.called || f.responded || f.fault == Rejected
                          then (if f.fault == Invalid then InvalidOutput else Stale)
                          else ProviderUnconfirmed, f.observed)))
      else if f.fault == Retryable && job.failures < MAX_FAILURES && prior.control.enabled
              && job.reference.expiresAt > now then
        Closing(Write(id, prior, Retry(RetryAt(job, now))))
      else
        Closing(Write(id, prior,
                      End(if f.fault == Retryable then RetryLimit else if f.fault == OverBudget then Budget else Stale,
                          f.observed)))
  }

  function Landed(m: Machine, token: Token, write: Write, applied: bool): Machine
    requires Applicable(write)
  {
    if applied && Commit(m.store, write).Some? then
      m.(store := Commit(m.store, write).value,
         callers := if write.change.Reserve? then m.callers[write.id := token] else m.callers,
         retried := if write.change.Retry? then m.retried + multiset{write.id} else m.retried)
    else m
  }

  predicate HasWrite(stage: Stage) {
    (stage.Leasing? || stage.Reserving? || stage.Renewing? || stage.Completing? || stage.Closing? || stage.Releasing?)
    && Applicable(stage.write)
  }

  function StepMachine(m: Machine, e: Event): Machine {
    match e
    case Switch(enabled) =>
      m.(store := m.store.(control := m.store.control.(enabled := enabled, revision := m.store.control.revision + 1)))
    case Recover(now) =>
      if m.store.control.enabled && |m.store.control.active| >= 1
         && forall k :: 0 <= k < |m.store.control.active| ==> Recoverable(m.store, m.store.control.active[k], now)
      then m.(store := RecoverAll(m.store)) else m
    case Submit(token, id, reference, now) =>
      if token in m.workers then m
      else
        var prior := Read(m.store, id);
        if prior.job.None? && prior.control.enabled && now < reference.expiresAt <= now + MAX_LIFETIME
           && |prior.control.active| < MAX_ACTIVE
        then Enter(m, token, id, Closing(Write(id, prior, Enqueue(reference, now)))) else m
    case Begin(token, id, span, now) =>
      if token in m.workers then m else Enter(m, token, id, BeginStage(Read(m.store, id), token, id, span, now))
    case Load(token, current, fault, now) =>
      if token !in m.workers
         || !(m.workers[token].stage.Loading? || m.workers[token].stage.Reloading?
              || m.workers[token].stage.Confirming?) then m
      else
        var w := m.workers[token];
        Go(m, token, LoadStage(Read(m.store, w.id), w.stage, token, w.id, current, fault, now))
    case Land(token, delivered, acked, fault, now) =>
      if token !in m.workers || !HasWrite(m.workers[token].stage) then m
      else
        var w := m.workers[token];
        var applied := delivered && Commit(m.store, w.stage.write).Some?;
        var next := Landed(m, token, w.stage.write, delivered);
        Go(next, token, LandStage(next.store, w, token, applied, acked, fault, now))
    case Dispatch(token, allowed) =>
      if token !in m.workers || !m.workers[token].stage.Armed? then m
      else if !allowed then Go(m, token, Failing(Failure(true, false, OtherFault, None)))
      else Go(m, token, Waiting).(calls := m.calls + [Call(m.workers[token].id, token)])
    case Answer(token, used, responded, fault) =>
      if token !in m.workers || !m.workers[token].stage.Waiting? then m
      else if used.None? then
        Go(m, token, Failing(Failure(true, responded, if responded then Invalid else fault, None)))
      else if used.value > MAX_TOKENS then Go(m, token, Failing(Failure(true, true, Invalid, None)))
      else Go(m, token, Responded(used.value, 0)).(answered := m.answered[token := used.value])
    case Settle(token, current, fault, now) =>
      if token !in m.workers || !m.workers[token].stage.Responded? then m
      else
        var w := m.workers[token];
        var prior := Read(m.store, w.id);
        if current && Holds(prior, w.id, token, now)
        then Go(m, token, Completing(Write(w.id, prior, Succeed(w.stage.used)), w.stage.used, w.stage.round))
        else Go(m, token, Failing(Failure(true, true, if current then OtherFault else fault, Some(w.stage.used))))
    case Catch(token, now) =>
      if token !in m.workers || !m.workers[token].stage.Failing? then m
      else
        var w := m.workers[token];
        Go(m, token, CatchStage(Read(m.store, w.id), token, w.id, w.stage.failure, now))
    case Resolve(token, id, evidence) =>
      if token in m.workers then m
      else
        var prior := Read(m.store, id);
        if prior.job.Some? && prior.job.value.phase == Dead && prior.job.value.reason == Some(ProviderUnconfirmed)
           && (evidence.Some? ==> evidence.value <= prior.job.value.reservedTokens)
        then Enter(m, token, id, Closing(Write(id, prior, Reconcile(evidence)))) else m
    case Cancel(token, id, reference, now) =>
      if token in m.workers then m
      else
        var prior := Read(m.store, id);
        if !PreCall(prior.job) then m
        else Enter(m, token, id,
               Releasing(Write(id, prior,
                               Release(if prior.job.Some? then prior.job.value.reference else reference, now))))
    case Observe(token) =>
      if token !in m.workers || !m.workers[token].stage.Observing? then m
      else
        var id := m.workers[token].id;
        var next := Go(m, token, Done);
        if id in m.store.jobs && m.store.jobs[id].phase == Dead && m.store.jobs[id].reason == Some(Cancelled)
        then next.(reported := m.reported + {id}) else next
  }

  function RunMachine(m: Machine, events: seq<Event>): Machine
    decreases |events|
  {
    if events == [] then m else RunMachine(StepMachine(m, events[0]), events[1..])
  }

  /** No job yet; the running totals may have any value. */
  function Initial(totals: Totals): Machine {
    Machine(Store(Control(1, true, [], []), totals, map[]), map[], map[], [], {}, multiset{}, map[])
  }
}
