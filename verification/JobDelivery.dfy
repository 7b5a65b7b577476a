/** What one delivery of a job comes to: when it takes a lease, what it checks before each of its writes and before the
    call, how it ends when nobody disturbs it, and what its failure handler leaves behind. */
module JobDelivery {
  import opened Prelude
  import opened JobStore
  import opened JobMachine
  import opened JobSafety
  import opened JobProtocol
  import opened JobOutcomes

  // ----- what a lease holder checks

  /** The job is leased to this worker, the lease runs, and the queue is switched on. */
  predicate LiveFor(store: Store, id: Id, token: Token, now: nat) {
    id in store.jobs && LeasedTo(store.jobs[id], token) && store.jobs[id].lease.value.until > now
    && store.control.enabled
  }

  /** In every state the protocol keeps, the checks of the reference and of the slot follow from the lease. */
  lemma HoldsExactly(store: Store, callers: map<Id, Token>, base: Totals, id: Id, token: Token, now: nat)
    requires StoreOk(store, callers, base)
    ensures Holds(Read(store, id), id, token, now) <==> LiveFor(store, id, token, now)
  {
    if LiveFor(store, id, token, now) {
      assert JobOk(store.jobs[id]);
      var s := Slot(id, token, store.jobs[id].lease.value.until);
      assert s in store.control.slots;
      var k :| 0 <= k < |store.control.slots| && store.control.slots[k] == s;
    }
  }

  /** The worker goes on from a check to the write, or to the call, that the check was made for. */
  predicate Proceeds(stage: Stage, next: Stage) {
    || (stage.Loading? && next.Reserving?)
    || (stage.Reloading? && next.Renewing?)
    || (stage.Confirming? && next.Armed?)
    || (stage.Responded? && next.Completing?)
  }

  lemma LoadProceeds(m: Machine, base: Totals, token: Token, current: bool, fault: Fault, now: nat)
    requires MachineOk(m, base) && token in m.workers
    requires var stage := m.workers[token].stage; stage.Loading? || stage.Reloading? || stage.Confirming?
    ensures var w := m.workers[token];
            Proceeds(w.stage, LoadStage(Read(m.store, w.id), w.stage, token, w.id, current, fault, now))
            <==> current && LiveFor(m.store, w.id, token, now)
  {
    var w := m.workers[token];
    HeldStageOk(m, base, token);
    HoldsExactly(m.store, m.callers, base, w.id, token, now);
    if w.id in m.store.jobs { assert JobOk(m.store.jobs[w.id]); }
  }

  /** Before it reserves, renews, calls or completes, a worker goes on if and only if the authority it reloaded is
      current and its own lease runs on an enabled queue. */
  lemma ProceedsExactly(m: Machine, base: Totals, e: Event)
    requires MachineOk(m, base) && (e.Load? || e.Settle?) && e.token in m.workers
    requires var stage := m.workers[e.token].stage;
             if e.Settle? then stage.Responded? else stage.Loading? || stage.Reloading? || stage.Confirming?
    ensures var next := StepMachine(m, e);
            && e.token in next.workers
            && (Proceeds(m.workers[e.token].stage, next.workers[e.token].stage) <==>
                  e.current && LiveFor(m.store, m.workers[e.token].id, e.token, e.now))
  {
    var w := m.workers[e.token];
    if e.Load? {
      LoadProceeds(m, base, e.token, e.current, e.fault, e.now);
    } else {
      HoldsExactly(m.store, m.callers, base, w.id, e.token, e.now);
    }
  }

  predicate ArmedAfter(m: Machine, e: Event, token: Token) {
    var next := StepMachine(m, e);
    token in next.workers && next.workers[token].stage.Armed?
  }

  lemma ArrivalArmsNobody(m: Machine, e: Event, token: Token)
    requires e.Submit? || e.Begin? || e.Resolve? || e.Cancel? || e.Switch? || e.Recover? || e.Land?
    requires ArmedAfter(m, e, token)
    ensures token in m.workers && m.workers[token].stage.Armed?
  {
  }

  /** Nothing else brings a worker to its call. */
  lemma ArmedOnlyByCheck(m: Machine, e: Event, token: Token)
    requires ArmedAfter(m, e, token)
    ensures token in m.workers
    ensures m.workers[token].stage.Armed? || (m.workers[token].stage.Confirming? && e.Load? && e.token == token)
  {
    if !e.Load? && !e.Dispatch? && !e.Answer? && !e.Settle? && !e.Catch? && !e.Observe? {
      ArrivalArmsNobody(m, e, token);
    }
  }

  /** Giving up, with the job charged or not, the provider heard from or not, for this cause, noting this usage. */
  predicate GaveUp(stage: Stage, called: bool, responded: bool, fault: Fault, observed: Option<nat>) {
    stage == Failing(Failure(called, responded, fault, observed))
  }

  /** A check that does not let a worker go on makes it give up: with the cause of the reload that failed, or as
      stale. */
  lemma RefusedCheck(m: Machine, base: Totals, e: Event)
    requires MachineOk(m, base) && (e.Load? || e.Settle?) && e.token in m.workers
    requires var stage := m.workers[e.token].stage;
             if e.Settle? then stage.Responded? else stage.Loading? || stage.Reloading? || stage.Confirming?
    requires !(e.current && LiveFor(m.store, m.workers[e.token].id, e.token, e.now))
    ensures var w, next := m.workers[e.token], StepMachine(m, e);
            && e.token in next.workers
            && GaveUp(next.workers[e.token].stage, e.Settle?, e.Settle?, if e.current then OtherFault else e.fault,
                      if e.Settle? then Some(w.stage.used) else None)
  {
    var w := m.workers[e.token];
    HoldsExactly(m.store, m.callers, base, w.id, e.token, e.now);
  }

  /** How a worker goes on when its write has been sent, exactly: an applied and acknowledged one leads on; after any
      other it leaves the job alone, or gives up with the cause it is told. */
  lemma SentExactly(m: Machine, token: Token, delivered: bool, acked: bool, fault: Fault, now: nat)
    requires token in m.workers && HasWrite(m.workers[token].stage) && !m.workers[token].stage.Completing?
    ensures var stage := m.workers[token].stage;
            var next := StepMachine(m, Land(token, delivered, acked, fault, now));
            var went := delivered && acked && Read(m.store, stage.write.id) == stage.write.prior;
            && token in next.workers
            && var after := next.workers[token].stage;
               && (stage.Leasing? ==> after == if went then Loading else Done)
               && (stage.Reserving? ==> if went then after == Reloading else GaveUp(after, false, false, fault, None))
               && (stage.Renewing? ==> if went then after == Confirming else GaveUp(after, false, false, fault, None))
               && (stage.Closing? ==> after == Done) && (stage.Releasing? ==> after == Observing)
  {
    LandIsGo(m, token, delivered, acked, fault, now);
  }

  /** A completion that was refused is tried again, up to three times, while the worker's lease still runs; one whose
      fate is unknown is not, and one that took effect after all is done. */
  lemma CompletionExactly(m: Machine, base: Totals, token: Token, delivered: bool, acked: bool, fault: Fault, now: nat)
    requires MachineOk(m, base) && token in m.workers && m.workers[token].stage.Completing?
    requires HasWrite(m.workers[token].stage)
    ensures var w := m.workers[token];
            var next := StepMachine(m, Land(token, delivered, acked, fault, now));
            var fits := Read(m.store, w.stage.write.id) == w.stage.write.prior;
            && token in next.workers
            && AfterCompletion(m.store, w, token, delivered && fits, acked, fault, now, next.workers[token].stage)
  {
    LandIsGo(m, token, delivered, acked, fault, now);
    HoldsExactly(m.store, m.callers, base, m.workers[token].id, token, now);
    CompletionStage(m.store, m.workers[token], token, delivered, acked, fault, now);
  }

  predicate AfterCompletion(store: Store, w: Worker, token: Token, applied: bool, acked: bool, fault: Fault, now: nat,
                            after: Stage)
    requires w.stage.Completing?
  {
    if applied && acked then after == Done
    else if !acked then GaveUp(after, true, true, fault, Some(w.stage.used))
    else if w.stage.round >= 2 then GaveUp(after, true, true, OtherFault, Some(w.stage.used))
    else if w.id in store.jobs && store.jobs[w.id].phase == Succeeded then after == Done
    else if LiveFor(store, w.id, token, now) then after == Responded(w.stage.used, w.stage.round + 1)
    else GaveUp(after, true, true, OtherFault, Some(w.stage.used))
  }

  lemma CompletionStage(store: Store, w: Worker, token: Token, delivered: bool, acked: bool, fault: Fault, now: nat)
    requires w.stage.Completing? && HasWrite(w.stage)
    requires Holds(Read(store, w.id), w.id, token, now) <==> LiveFor(store, w.id, token, now)
    ensures var fits := delivered && Commit(store, w.stage.write).Some?;
            var next := if fits then Commit(store, w.stage.write).value else store;
            && (fits <==> delivered && Read(store, w.stage.write.id) == w.stage.write.prior)
            && AfterCompletion(store, w, token, fits, acked, fault, now,
                               LandStage(next, w, token, fits, acked, fault, now))
  {
  }

  // ----- what an undisturbed delivery does first

  /** A lease on the job runs already. */
  predicate Held(job: Job, now: nat) { job.lease.Some? && job.lease.value.until > now }

  /** The job was ended, or nothing happened to it, or it was leased: one delivery's effect on the records. */
  predicate DeliveryDoes(store: Store, next: Store, id: Id, token: Token, span: nat, now: nat) {
    if id !in store.jobs || store.jobs[id].phase in {Succeeded, Dead} || Held(store.jobs[id], now) then next == store
    else
      var job := store.jobs[id];
      if job.phase == Calling then EndsAs(store, next, id, ProviderUnconfirmed)
      else if !store.control.enabled then EndsAs(store, next, id, Disabled)
      else if job.reference.expiresAt <= now then EndsAs(store, next, id, JobStore.Expired)
      else if job.availableAt > now || |Unexpired(store.control.slots, id, now)| >= MAX_SLOTS then next == store
      else id in next.jobs
           && next.jobs[id] == job.(revision := job.revision + 1, phase := Leased,
                                    lease := Some(Lease(token, LeaseEnd(job.reference, span, now))))
           && next.control.active == store.control.active && next.totals == store.totals
  }

  /** The job is dead for this reason, its charge stays, and it leaves the queue unless its call is unconfirmed. */
  predicate EndsAs(store: Store, next: Store, id: Id, reason: Reason) {
    && id in store.jobs && id in next.jobs && next.totals == store.totals
    && next.jobs[id] == store.jobs[id].(revision := store.jobs[id].revision + 1, phase := Dead, lease := None,
                                        reason := Some(reason))
    && next.control.active == if reason == ProviderUnconfirmed then store.control.active
                              else WithoutActive(store.control.active, id)
  }

  /** What a delivery sends on the records as they are. */
  lemma BeginWrites(store: Store, id: Id, token: Token, span: nat, now: nat)
    requires id in store.jobs ==> JobOk(store.jobs[id])
    ensures var stage := BeginStage(Read(store, id), token, id, span, now);
            if HasWrite(stage) then
              Commit(store, stage.write).Some?
              && DeliveryDoes(store, Commit(store, stage.write).value, id, token, span, now)
            else DeliveryDoes(store, store, id, token, span, now)
  {
  }

  lemma BegunAndLanded(m: Machine, token: Token, id: Id, span: nat, now: nat, acked: bool, fault: Fault)
    requires token !in m.workers
    ensures var stage := BeginStage(Read(m.store, id), token, id, span, now);
            var next := RunMachine(m, [Begin(token, id, span, now), Land(token, true, acked, fault, now)]);
            next.store == if HasWrite(stage) && Commit(m.store, stage.write).Some?
                          then Commit(m.store, stage.write).value else m.store
  {
    RunTwo(m, Begin(token, id, span, now), Land(token, true, acked, fault, now));
    var stage := BeginStage(Read(m.store, id), token, id, span, now);
    var begun := Enter(m, token, id, stage);
    if HasWrite(stage) { LandIsGo(begun, token, true, acked, fault, now); }
  }

  /** One delivery, with nobody in between, whether or not its write is acknowledged. */
  lemma DeliveryExactly(totals: Totals, run: seq<Event>, token: Token, id: Id, span: nat, now: nat, acked: bool,
                        fault: Fault)
    requires token !in RunMachine(Initial(totals), run).workers
    ensures var m := RunMachine(Initial(totals), run);
            var next := RunMachine(m, [Begin(token, id, span, now), Land(token, true, acked, fault, now)]);
            DeliveryDoes(m.store, next.store, id, token, span, now)
  {
    var m := RunMachine(Initial(totals), run);
    Reachable(totals, run);
    if id in m.store.jobs { assert JobOk(m.store.jobs[id]); }
    BeginWrites(m.store, id, token, span, now);
    BegunAndLanded(m, token, id, span, now, acked, fault);
  }

  // ----- what an undisturbed failure leaves

  /** What the failure handler is to make of the job, which is still leased to the worker that failed. */
  predicate FailureDoes(m: Machine, next: Machine, id: Id, f: Failure, now: nat)
    requires id in m.store.jobs
  {
    var job := m.store.jobs[id];
    if job.attempts > 0 then
      EndsNoting(m.store, next.store, id, f.observed,
                 if f.called && !f.responded && f.fault != Rejected then ProviderUnconfirmed
                 else if f.fault == Invalid then InvalidOutput else Stale)
    else if f.fault != Retryable then
      EndsNoting(m.store, next.store, id, None, if f.fault == OverBudget then Budget else Stale)
    else if m.retried[id] == 2 || !m.store.control.enabled || job.reference.expiresAt <= now then
      EndsNoting(m.store, next.store, id, None, RetryLimit)
    else GivesBack(m, next, id, now)
  }

  predicate EndsNoting(store: Store, next: Store, id: Id, observed: Option<nat>, reason: Reason) {
    && id in next.jobs && next.jobs[id].phase == Dead && next.jobs[id].reason == Some(reason)
    && next.jobs[id].lease.None? && next.jobs[id].usage == observed && next.totals == store.totals
    && (id in next.control.active <==> reason == ProviderUnconfirmed)
  }

  /** The job is ready again after half a second, or a whole one the second time, but no later than it expires; it keeps
      its place in the queue and gives its slot back. */
  predicate GivesBack(m: Machine, next: Machine, id: Id, now: nat)
    requires id in m.store.jobs
  {
    var job := m.store.jobs[id];
    var due := now + if m.retried[id] == 0 then 500 else 1000;
    && id in next.store.jobs && next.store.jobs[id].phase == Ready && next.store.jobs[id].lease.None?
    && next.store.jobs[id].attempts == 0 && next.store.totals == m.store.totals
    && next.store.jobs[id].availableAt == (if due < job.reference.expiresAt then due else job.reference.expiresAt)
    && next.retried == m.retried + multiset{id}
    && id in next.store.control.active && !HasSlot(next.store.control.slots, id)
  }

  /** What the handler sends of a failure before the charge. */
  lemma UnchargedStage(prior: Snapshot, token: Token, id: Id, f: Failure, now: nat)
    requires prior.job.Some? && LeasedTo(prior.job.value, token) && prior.job.value.phase == Leased && !f.called
    ensures var job := prior.job.value;
            CatchStage(prior, token, id, f, now) ==
              Closing(Write(id, prior,
                            if f.fault == Retryable && job.failures < 2 && prior.control.enabled
                               && job.reference.expiresAt > now
                            then Retry(RetryAt(job, now))
                            else End(if f.fault == Retryable then RetryLimit
                                     else if f.fault == OverBudget then Budget else Stale, f.observed)))
  {
  }

  lemma ChargedStage(prior: Snapshot, token: Token, id: Id, f: Failure, now: nat)
    requires prior.job.Some? && LeasedTo(prior.job.value, token) && prior.job.value.phase == Calling
    ensures CatchStage(prior, token, id, f, now) ==
              Closing(Write(id, prior,
                            End(if f.called && !f.responded && f.fault != Rejected then ProviderUnconfirmed
                                else if f.fault == Invalid then InvalidOutput else Stale, f.observed)))
  {
  }

  /** A write made on the records as they are takes effect when it arrives. */
  lemma FreshLands(m: Machine, token: Token, w: Write, acked: bool, fault: Fault, now: nat)
    requires token in m.workers && m.workers[token].stage == Closing(w) && Applicable(w)
    requires w.prior == Read(m.store, w.id)
    ensures var next := StepMachine(m, Land(token, true, acked, fault, now));
            && next.store == Store(NextControl(w), NextTotals(w), m.store.jobs[w.id := NextJob(w)])
            && next.retried == if w.change.Retry? then m.retried + multiset{w.id} else m.retried
  {
  }

  lemma CaughtAndLanded(m: Machine, token: Token, w: Write, acked: bool, fault: Fault, now: nat)
    requires token in m.workers && m.workers[token].stage.Failing? && Applicable(w)
    requires w.id == m.workers[token].id && w.prior == Read(m.store, w.id)
    requires CatchStage(w.prior, token, w.id, m.workers[token].stage.failure, now) == Closing(w)
    ensures var next := RunMachine(m, [Catch(token, now), Land(token, true, acked, fault, now)]);
            && next.store == Store(NextControl(w), NextTotals(w), m.store.jobs[w.id := NextJob(w)])
            && next.retried == if w.change.Retry? then m.retried + multiset{w.id} else m.retried
  {
    RunTwo(m, Catch(token, now), Land(token, true, acked, fault, now));
    FreshLands(StepMachine(m, Catch(token, now)), token, w, acked, fault, now);
  }

  lemma EndNotes(w: Write, reason: Reason, observed: Option<nat>)
    requires w.prior.job.Some? && w.change == End(reason, observed) && w.prior.job.value.usage.None?
    requires w.id in w.prior.control.active
    ensures NextJob(w).phase == Dead && NextJob(w).reason == Some(reason) && NextJob(w).lease.None?
    ensures NextJob(w).usage == observed && NextTotals(w) == w.prior.totals
    ensures w.id in NextControl(w).active <==> reason == ProviderUnconfirmed
  {
  }

  /** The failed job as it is found: queued, unfinished, and charged exactly if it is calling. */
  lemma FailedJob(m: Machine, base: Totals, token: Token)
    requires MachineOk(m, base) && OutcomesOk(m) && token in m.workers && m.workers[token].stage.Failing?
    requires m.workers[token].id in m.store.jobs && LeasedTo(m.store.jobs[m.workers[token].id], token)
    ensures var id, f := m.workers[token].id, m.workers[token].stage.failure;
            var job := m.store.jobs[id];
            && job.phase == (if job.attempts > 0 then Calling else Leased) && job.usage.None?
            && job.failures == m.retried[id] <= 2
            && id in m.store.control.active && (f.called ==> job.attempts > 0) && (f.observed.Some? ==> f.called)
  {
    HeldStageOk(m, base, token);
    var id := m.workers[token].id;
    assert JobOk(m.store.jobs[id]) && JobSound(id, m.store.jobs[id], m.callers, m.answered, m.retried[id]);
    assert StageSound(m.workers[token].stage, token, m.answered);
  }

  lemma ChargedFailure(m: Machine, base: Totals, token: Token, acked: bool, fault: Fault, now: nat)
    requires MachineOk(m, base) && OutcomesOk(m) && token in m.workers && m.workers[token].stage.Failing?
    requires m.workers[token].id in m.store.jobs && LeasedTo(m.store.jobs[m.workers[token].id], token)
    requires m.store.jobs[m.workers[token].id].attempts > 0
    ensures FailureDoes(m, RunMachine(m, [Catch(token, now), Land(token, true, acked, fault, now)]),
                        m.workers[token].id, m.workers[token].stage.failure, now)
  {
    var id, f := m.workers[token].id, m.workers[token].stage.failure;
    FailedJob(m, base, token);
    ChargedStage(Read(m.store, id), token, id, f, now);
    var w := CatchStage(Read(m.store, id), token, id, f, now).write;
    CaughtAndLanded(m, token, w, acked, fault, now);
    EndNotes(w, w.change.reason, w.change.observed);
  }

  lemma RetryGivesBack(m: Machine, id: Id, w: Write, now: nat, next: Machine)
    requires id in m.store.jobs && m.store.jobs[id].phase == Leased && m.store.jobs[id].attempts == 0
    requires m.store.jobs[id].failures == m.retried[id] < 2 && id in m.store.control.active
    requires w == Write(id, Read(m.store, id), Retry(RetryAt(m.store.jobs[id], now)))
    requires next.store == Store(NextControl(w), NextTotals(w), m.store.jobs[id := NextJob(w)])
    requires next.retried == m.retried + multiset{id}
    ensures GivesBack(m, next, id, now)
  {
    assert Delay(1) == 2 * Delay(0);
    var slots := WithoutSlot(m.store.control.slots, id);
    forall k | 0 <= k < |slots| ensures slots[k].jobId != id { assert slots[k] in slots; }
  }

  lemma UnchargedFailure(m: Machine, base: Totals, token: Token, acked: bool, fault: Fault, now: nat)
    requires MachineOk(m, base) && OutcomesOk(m) && token in m.workers && m.workers[token].stage.Failing?
    requires m.workers[token].id in m.store.jobs && LeasedTo(m.store.jobs[m.workers[token].id], token)
    requires m.store.jobs[m.workers[token].id].attempts == 0
    ensures FailureDoes(m, RunMachine(m, [Catch(token, now), Land(token, true, acked, fault, now)]),
                        m.workers[token].id, m.workers[token].stage.failure, now)
  {
    var id, f := m.workers[token].id, m.workers[token].stage.failure;
    FailedJob(m, base, token);
    UnchargedStage(Read(m.store, id), token, id, f, now);
    var w := CatchStage(Read(m.store, id), token, id, f, now).write;
    CaughtAndLanded(m, token, w, acked, fault, now);
    var next := RunMachine(m, [Catch(token, now), Land(token, true, acked, fault, now)]);
    if w.change.Retry? {
      RetryGivesBack(m, id, w, now, next);
    } else {
      EndNotes(w, w.change.reason, w.change.observed);
    }
  }

  lemma LostLeaseLeaves(m: Machine, token: Token, acked: bool, fault: Fault, now: nat)
    requires token in m.workers && m.workers[token].stage.Failing?
    requires m.workers[token].id !in m.store.jobs || !LeasedTo(m.store.jobs[m.workers[token].id], token)
    ensures RunMachine(m, [Catch(token, now), Land(token, true, acked, fault, now)]).store == m.store
  {
    RunTwo(m, Catch(token, now), Land(token, true, acked, fault, now));
    assert StepMachine(m, Catch(token, now)) == Go(m, token, Done);
  }

  /** A failure, caught with nobody in between: a job still leased to the worker ends, is quarantined or is given back
      exactly as its charge, its cause and its retries so far say; any other is left alone. */
  lemma FailureExactly(totals: Totals, run: seq<Event>, token: Token, acked: bool, fault: Fault, now: nat)
    requires var m := RunMachine(Initial(totals), run); token in m.workers && m.workers[token].stage.Failing?
    ensures var m := RunMachine(Initial(totals), run);
            var next := RunMachine(m, [Catch(token, now), Land(token, true, acked, fault, now)]);
            var id := m.workers[token].id;
            if id in m.store.jobs && LeasedTo(m.store.jobs[id], token)
            then FailureDoes(m, next, id, m.workers[token].stage.failure, now) else next.store == m.store
  {
    var m := RunMachine(Initial(totals), run);
    Reachable(totals, run);
    ReachableSound(totals, run);
    var id := m.workers[token].id;
    if id in m.store.jobs && LeasedTo(m.store.jobs[id], token) {
      if m.store.jobs[id].attempts > 0 { ChargedFailure(m, totals, token, acked, fault, now); }
      else { UnchargedFailure(m, totals, token, acked, fault, now); }
    } else {
      LostLeaseLeaves(m, token, acked, fault, now);
    }
  }

  // ----- a delivery that nobody disturbs goes all the way

  /** The worker is at this stage, and its lease on the job, which is in this phase, runs. */
  predicate Stands(m: Machine, token: Token, id: Id, stage: Stage, phase: Phase, now: nat) {
    token in m.workers && m.workers[token] == Worker(id, stage) && LiveFor(m.store, id, token, now)
    && m.store.jobs[id].phase == phase
  }

  predicate ChargedOnce(before: Totals, after: Totals) {
    after == Totals(before.tokens + MAX_TOKENS, before.cost + MAX_COST)
  }

  lemma LandsApplied(m: Machine, token: Token, now: nat)
    requires token in m.workers && HasWrite(m.workers[token].stage)
    requires m.workers[token].stage.write.prior == Read(m.store, m.workers[token].stage.write.id)
    ensures var w := m.workers[token].stage.write;
            var landed := Landed(m, token, w, true);
            && landed.store == Store(NextControl(w), NextTotals(w), m.store.jobs[w.id := NextJob(w)])
            && StepMachine(m, Land(token, true, true, OtherFault, now)) ==
                 Go(landed, token, LandStage(landed.store, m.workers[token], token, true, true, OtherFault, now))
  {
    LandIsGo(m, token, true, true, OtherFault, now);
  }

  function Taken(token: Token, id: Id, span: nat, now: nat): seq<Event> {
    [Begin(token, id, span, now), Land(token, true, true, OtherFault, now)]
  }

  function CheckedAndLanded(token: Token, now: nat): seq<Event> {
    [Load(token, true, OtherFault, now), Land(token, true, true, OtherFault, now)]
  }

  function CheckedAndCalled(token: Token, now: nat): seq<Event> {
    [Load(token, true, OtherFault, now), Dispatch(token, true)]
  }

  function Completed(token: Token, used: nat, now: nat): seq<Event> {
    [Answer(token, Some(used), true, OtherFault), Settle(token, true, OtherFault, now),
     Land(token, true, true, OtherFault, now)]
  }

  /** A job that can be leased is waiting, and there is room. */
  predicate Deliverable(store: Store, id: Id, now: nat) {
    && id in store.jobs && store.jobs[id].phase == Ready && store.jobs[id].lease.None?
    && store.jobs[id].availableAt <= now < store.jobs[id].reference.expiresAt && store.control.enabled
    && |Unexpired(store.control.slots, id, now)| < MAX_SLOTS
  }

  lemma Leases(m: Machine, token: Token, id: Id, span: nat, now: nat)
    requires token !in m.workers && Deliverable(m.store, id, now) && span > 0
    ensures var next := RunMachine(m, Taken(token, id, span, now));
            Stands(next, token, id, Loading, Leased, now) && next.calls == m.calls
            && next.store.totals == m.store.totals
  {
    RunTwo(m, Begin(token, id, span, now), Land(token, true, true, OtherFault, now));
    var begun := Enter(m, token, id, BeginStage(Read(m.store, id), token, id, span, now));
    LandsApplied(begun, token, now);
  }

  /** A current check makes a leased worker send its reservation. */
  lemma ChecksReservation(m: Machine, base: Totals, token: Token, id: Id, now: nat)
    requires MachineOk(m, base) && Stands(m, token, id, Loading, Leased, now)
    ensures var w := Write(id, Read(m.store, id), Reserve);
            StepMachine(m, Load(token, true, OtherFault, now)) == Go(m, token, Reserving(w))
            && m.store.jobs[id].attempts == 0
  {
    LoadProceeds(m, base, token, true, OtherFault, now);
    assert JobOk(m.store.jobs[id]);
  }

  lemma Reserves(m: Machine, base: Totals, token: Token, id: Id, now: nat)
    requires MachineOk(m, base) && Stands(m, token, id, Loading, Leased, now)
    ensures var next := RunMachine(m, CheckedAndLanded(token, now));
            Stands(next, token, id, Reloading, Calling, now) && next.calls == m.calls
            && ChargedOnce(m.store.totals, next.store.totals)
  {
    RunTwo(m, Load(token, true, OtherFault, now), Land(token, true, true, OtherFault, now));
    ChecksReservation(m, base, token, id, now);
    LandsApplied(Go(m, token, Reserving(Write(id, Read(m.store, id), Reserve))), token, now);
  }

  lemma Renews(m: Machine, base: Totals, token: Token, id: Id, now: nat)
    requires MachineOk(m, base) && Stands(m, token, id, Reloading, Calling, now)
    ensures var next := RunMachine(m, CheckedAndLanded(token, now));
            Stands(next, token, id, Confirming, Calling, now) && next.calls == m.calls
            && next.store.totals == m.store.totals
  {
    RunTwo(m, Load(token, true, OtherFault, now), Land(token, true, true, OtherFault, now));
    LoadProceeds(m, base, token, true, OtherFault, now);
    LandsApplied(StepMachine(m, Load(token, true, OtherFault, now)), token, now);
  }

  lemma Calls(m: Machine, base: Totals, token: Token, id: Id, now: nat)
    requires MachineOk(m, base) && Stands(m, token, id, Confirming, Calling, now)
    ensures var next := RunMachine(m, CheckedAndCalled(token, now));
            Stands(next, token, id, Waiting, Calling, now) && next.calls == m.calls + [Call(id, token)]
            && next.store.totals == m.store.totals
  {
    RunTwo(m, Load(token, true, OtherFault, now), Dispatch(token, true));
    LoadProceeds(m, base, token, true, OtherFault, now);
  }

  /** The answer and the check after it bring the worker to its completion. */
  lemma Settles(m: Machine, token: Token, id: Id, used: nat, now: nat)
    requires token in m.workers && m.workers[token] == Worker(id, Waiting) && used <= MAX_TOKENS
    requires Holds(Read(m.store, id), id, token, now)
    ensures var w := Write(id, Read(m.store, id), Succeed(used));
            var answered := StepMachine(m, Answer(token, Some(used), true, OtherFault));
            var settled := StepMachine(answered, Settle(token, true, OtherFault, now));
            settled == Go(answered, token, Completing(w, used, 0)) && settled.store == m.store
            && settled.calls == m.calls
            && token in settled.workers && settled.workers[token] == Worker(id, Completing(w, used, 0))
  {
  }

  lemma CompletionSucceeds(m: Machine, token: Token, id: Id, used: nat, now: nat)
    requires token in m.workers && id in m.store.jobs
    requires m.workers[token] == Worker(id, Completing(Write(id, Read(m.store, id), Succeed(used)), used, 0))
    ensures var next := StepMachine(m, Land(token, true, true, OtherFault, now));
            next.calls == m.calls && next.store.totals == m.store.totals && Succeeds(next.store, id, used)
  {
    LandsApplied(m, token, now);
    var slots := WithoutSlot(m.store.control.slots, id);
    forall k | 0 <= k < |slots| ensures slots[k].jobId != id { assert slots[k] in slots; }
  }

  lemma Completes(m: Machine, base: Totals, token: Token, id: Id, used: nat, now: nat)
    requires MachineOk(m, base) && Stands(m, token, id, Waiting, Calling, now) && used <= MAX_TOKENS
    ensures var next := RunMachine(m, Completed(token, used, now));
            && next.calls == m.calls && next.store.totals == m.store.totals && Succeeds(next.store, id, used)
  {
    RunThree(m, Answer(token, Some(used), true, OtherFault), Settle(token, true, OtherFault, now),
             Land(token, true, true, OtherFault, now));
    HoldsExactly(m.store, m.callers, base, id, token, now);
    Settles(m, token, id, used, now);
    var answered := StepMachine(m, Answer(token, Some(used), true, OtherFault));
    CompletionSucceeds(StepMachine(answered, Settle(token, true, OtherFault, now)), token, id, used, now);
  }

  /** The job has succeeded with this usage, and has left the queue. */
  predicate Succeeds(store: Store, id: Id, used: nat) {
    && id in store.jobs && store.jobs[id].phase == Succeeded && store.jobs[id].usage == Some(used)
    && store.jobs[id].lease.None? && id !in store.control.active && !HasSlot(store.control.slots, id)
  }

  /** All the steps of one delivery: lease, reservation, renewal, call, completion. */
  function WholeDelivery(token: Token, id: Id, span: nat, used: nat, now: nat): seq<Event> {
    Taken(token, id, span, now)
    + (CheckedAndLanded(token, now)
       + (CheckedAndLanded(token, now) + (CheckedAndCalled(token, now) + Completed(token, used, now))))
  }

  /** A delivery that nobody disturbs calls the provider once, charges one attempt, and completes the job with what the
      provider reported. */
  lemma DeliverySucceeds(totals: Totals, run: seq<Event>, token: Token, id: Id, span: nat, used: nat, now: nat)
    requires var m := RunMachine(Initial(totals), run); token !in m.workers && Deliverable(m.store, id, now)
    requires span > 0 && used <= MAX_TOKENS
    ensures var m := RunMachine(Initial(totals), run);
            var next := RunMachine(m, WholeDelivery(token, id, span, used, now));
            && Succeeds(next.store, id, used) && next.calls == m.calls + [Call(id, token)]
            && ChargedOnce(m.store.totals, next.store.totals)
  {
    var m := RunMachine(Initial(totals), run);
    Reachable(totals, run);
    var a := RunMachine(m, Taken(token, id, span, now));
    Leases(m, token, id, span, now);
    RunMachineKeeps(m, totals, Taken(token, id, span, now));
    DeliveryGoesOn(a, totals, token, id, used, now);
    RunConcat(m, Taken(token, id, span, now),
              CheckedAndLanded(token, now)
              + (CheckedAndLanded(token, now) + (CheckedAndCalled(token, now) + Completed(token, used, now))));
  }

  lemma DeliveryGoesOn(m: Machine, base: Totals, token: Token, id: Id, used: nat, now: nat)
    requires MachineOk(m, base) && Stands(m, token, id, Loading, Leased, now) && used <= MAX_TOKENS
    ensures var next := RunMachine(m, CheckedAndLanded(token, now)
                                      + (CheckedAndLanded(token, now)
                                         + (CheckedAndCalled(token, now) + Completed(token, used, now))));
            && Succeeds(next.store, id, used) && next.calls == m.calls + [Call(id, token)]
            && ChargedOnce(m.store.totals, next.store.totals)
  {
    var reserved := RunMachine(m, CheckedAndLanded(token, now));
    Reserves(m, base, token, id, now);
    RunMachineKeeps(m, base, CheckedAndLanded(token, now));
    var renewed := RunMachine(reserved, CheckedAndLanded(token, now));
    Renews(reserved, base, token, id, now);
    RunMachineKeeps(reserved, base, CheckedAndLanded(token, now));
    CallGoesOn(renewed, base, token, id, used, now);
    RunConcat(reserved, CheckedAndLanded(token, now), CheckedAndCalled(token, now) + Completed(token, used, now));
    RunConcat(m, CheckedAndLanded(token, now),
              CheckedAndLanded(token, now) + (CheckedAndCalled(token, now) + Completed(token, used, now)));
  }

  lemma CallGoesOn(m: Machine, base: Totals, token: Token, id: Id, used: nat, now: nat)
    requires MachineOk(m, base) && Stands(m, token, id, Confirming, Calling, now) && used <= MAX_TOKENS
    ensures var next := RunMachine(m, CheckedAndCalled(token, now) + Completed(token, used, now));
            && Succeeds(next.store, id, used) && next.calls == m.calls + [Call(id, token)]
            && next.store.totals == m.store.totals
  {
    var called := RunMachine(m, CheckedAndCalled(token, now));
    Calls(m, base, token, id, now);
    RunMachineKeeps(m, base, CheckedAndCalled(token, now));
    Completes(called, base, token, id, used, now);
    RunConcat(m, CheckedAndCalled(token, now), Completed(token, used, now));
  }

  /** A request that nobody disturbs is queued, and its job can be delivered at once if there is room. */
  lemma SubmittedIsDeliverable(m: Machine, worker: Token, id: Id, reference: Reference, now: nat)
    requires worker !in m.workers && id !in m.store.jobs && m.store.control.enabled
    requires now < reference.expiresAt <= now + MAX_LIFETIME && |m.store.control.active| < MAX_ACTIVE
    requires |Unexpired(m.store.control.slots, id, now)| < MAX_SLOTS
    ensures var next := RunMachine(m, [Submit(worker, id, reference, now),
                                       Land(worker, true, true, OtherFault, now)]);
            && Deliverable(next.store, id, now) && next.store.jobs[id].reference == reference
            && next.store.jobs[id].availableAt == now
            && next.store.control.active == m.store.control.active + [id]
            && next.workers == m.workers[worker := Worker(id, Done)]
  {
    RunTwo(m, Submit(worker, id, reference, now), Land(worker, true, true, OtherFault, now));
    LandsApplied(StepMachine(m, Submit(worker, id, reference, now)), worker, now);
  }

  /** What a request does that is not admitted: nothing. */
  lemma SubmitExactly(m: Machine, worker: Token, id: Id, reference: Reference, now: nat)
    ensures StepMachine(m, Submit(worker, id, reference, now)) != m <==>
              worker !in m.workers && id !in m.store.jobs && m.store.control.enabled
              && now < reference.expiresAt <= now + 300_000 && |m.store.control.active| < 64
  {
    if worker !in m.workers {
      assert worker in Enter(m, worker, id,
                             Closing(Write(id, Read(m.store, id), Enqueue(reference, now)))).workers;
    }
  }

  // ----- an answer, and a proof that there will be none

  /** The provider's answer is accepted exactly if its usage is within what was reserved; a larger usage, or a response
      without a usable one, is an invalid output, and no response is what the error says. */
  lemma AnswerExactly(m: Machine, token: Token, used: Option<nat>, responded: bool, fault: Fault)
    requires token in m.workers && m.workers[token].stage.Waiting?
    ensures var next := StepMachine(m, Answer(token, used, responded, fault));
            var given := used.Some? || responded;
            && token in next.workers && next.store == m.store
            && if used.Some? && used.value <= MAX_TOKENS
               then next.workers[token].stage == Responded(used.value, 0)
                    && next.answered == m.answered[token := used.value]
               else next.workers[token].stage == Failing(Failure(true, given, if given then Invalid else fault, None))
                    && next.answered == m.answered
  {
  }

  /** What is known of the provider, when a proof is offered that an unconfirmed call has stopped. */
  predicate Provable(store: Store, id: Id, evidence: Option<nat>) {
    && id in store.jobs && Uncertain(store.jobs[id])
    && (evidence.Some? ==> evidence.value <= store.jobs[id].reservedTokens)
  }

  /** A proof that the provider has stopped, undisturbed, retires exactly an unconfirmed job, and only with a usage
      within what was reserved: it stays dead and charged, notes the proven usage, and gives its place and its slot
      back. */
  lemma ReconcileExactly(m: Machine, token: Token, id: Id, evidence: Option<nat>, acked: bool, fault: Fault, now: nat)
    requires token !in m.workers
    ensures var next := RunMachine(m, [Resolve(token, id, evidence), Land(token, true, acked, fault, now)]);
            if Provable(m.store, id, evidence) then Retires(m.store, next.store, id, evidence)
            else next.store == m.store
  {
    RunTwo(m, Resolve(token, id, evidence), Land(token, true, acked, fault, now));
    ResolveExactly(m, token, id, evidence);
    if Provable(m.store, id, evidence) {
      var w := Write(id, Read(m.store, id), Reconcile(evidence));
      FreshLands(Enter(m, token, id, Closing(w)), token, w, acked, fault, now);
      RetiredBy(m.store, w, evidence);
    }
  }

  lemma ResolveExactly(m: Machine, token: Token, id: Id, evidence: Option<nat>)
    requires token !in m.workers
    ensures StepMachine(m, Resolve(token, id, evidence)) ==
              if Provable(m.store, id, evidence)
              then Enter(m, token, id, Closing(Write(id, Read(m.store, id), Reconcile(evidence)))) else m
  {
  }

  predicate Retires(store: Store, next: Store, id: Id, evidence: Option<nat>) {
    && id in store.jobs && id in next.jobs && next.totals == store.totals
    && next.jobs[id] == store.jobs[id].(revision := store.jobs[id].revision + 1, phase := Dead, lease := None,
                                        reason := Some(Stale), proved := true, usage := evidence)
    && id !in next.control.active && !HasSlot(next.control.slots, id)
  }

  lemma RetiredBy(store: Store, w: Write, evidence: Option<nat>)
    requires w == Write(w.id, Read(store, w.id), Reconcile(evidence)) && w.id in store.jobs
    ensures Retires(store, Store(NextControl(w), NextTotals(w), store.jobs[w.id := NextJob(w)]), w.id, evidence)
  {
    var slots := WithoutSlot(store.control.slots, w.id);
    forall k | 0 <= k < |slots| ensures slots[k].jobId != w.id { assert slots[k] in slots; }
  }
}
