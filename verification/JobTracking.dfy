/** A dispatched call that is still unanswered never drops out of the queue unnoticed. */
module JobTracking {
  import opened Prelude
  import opened JobStore
  import opened JobMachine
  import opened JobSafety
  import opened JobProtocol

  /** The stages in which a worker's attempt is charged and no verdict has been written by that worker. */
  predicate InFlight(stage: Stage) {
    stage.Reloading? || stage.Renewing? || stage.Confirming? || stage.Armed? || stage.Waiting? || stage.Responded?
    || stage.Completing?
  }

  /** The job is still calling, quarantined as unconfirmed, or retired on proof that the provider had stopped. */
  predicate Tracked(job: Job) {
    job.phase == Calling || (job.phase == Dead && (job.reason == Some(ProviderUnconfirmed) || job.proved))
  }

  ghost predicate AllTracked(m: Machine) {
    forall t :: t in m.workers && InFlight(m.workers[t].stage) ==>
      m.workers[t].id in m.store.jobs && Tracked(m.store.jobs[m.workers[t].id])
  }

  /** A write by somebody else leaves a tracked job tracked. */
  lemma WriteTracks(job: Job, caller: Token, w: Write, token: Token)
    requires JobOk(job) && Tracked(job) && (job.phase == Calling ==> LeasedTo(job, caller))
    requires Applicable(w) && WriteOk(w, token) && w.prior.job == Some(job)
    requires token != caller || w.change.Renew? || w.change.Reconcile?
    ensures Tracked(NextJob(w))
  {
  }

  /** A participant that is in flight once its write took effect had reserved or renewed; one whose write did not take
      effect was in flight before. */
  lemma SenderWasInFlight(next: Store, w: Worker, token: Token, applied: bool, acked: bool, fault: Fault, now: nat)
    requires HasWrite(w.stage) && StageWriteOk(w.stage, w.id, token)
    requires applied ==> w.id in next.jobs && next.jobs[w.id] == NextJob(w.stage.write)
    requires InFlight(LandStage(next, w, token, applied, acked, fault, now))
    ensures if applied then w.stage.Reserving? || w.stage.Renewing? else InFlight(w.stage)
  {
  }

  lemma HeldFits(m: Machine, base: Totals, token: Token)
    requires MachineOk(m, base) && token in m.workers
    ensures StageWriteOk(m.workers[token].stage, m.workers[token].id, token)
  {
    HeldStageOk(m, base, token);
  }

  lemma OtherJobUntouched(store: Store, w: Write, id: Id)
    requires Applicable(w) && Commit(store, w).Some? && id != w.id && id in store.jobs
    ensures id in Commit(store, w).value.jobs && Commit(store, w).value.jobs[id] == store.jobs[id]
  {
  }

  /** A write that took effect leaves the job of every worker in flight tracked. */
  lemma AppliedTracks(m: Machine, base: Totals, token: Token, t: Token)
    requires MachineOk(m, base) && AllTracked(m) && token in m.workers && HasWrite(m.workers[token].stage)
    requires Commit(m.store, m.workers[token].stage.write).Some? && t in m.workers
    requires if t == token then m.workers[t].stage.Reserving? || m.workers[t].stage.Renewing?
             else InFlight(m.workers[t].stage)
    ensures var next := Commit(m.store, m.workers[token].stage.write).value;
            m.workers[t].id in next.jobs && Tracked(next.jobs[m.workers[t].id])
  {
    var w := m.workers[token].stage.write;
    HeldFits(m, base, token);
    if m.workers[t].id == w.id {
      LandedOnTracked(m, base, token, t);
    } else {
      OtherJobUntouched(m.store, w, m.workers[t].id);
    }
  }

  lemma AppliedTracksAll(m: Machine, base: Totals, token: Token, stage: Stage)
    requires MachineOk(m, base) && AllTracked(m) && token in m.workers && HasWrite(m.workers[token].stage)
    requires Commit(m.store, m.workers[token].stage.write).Some?
    requires InFlight(stage) ==> m.workers[token].stage.Reserving? || m.workers[token].stage.Renewing?
    ensures AllTracked(Go(Landed(m, token, m.workers[token].stage.write, true), token, stage))
  {
    var landed := Landed(m, token, m.workers[token].stage.write, true);
    forall t | t in m.workers && InFlight(if t == token then stage else m.workers[t].stage)
      ensures m.workers[t].id in landed.store.jobs && Tracked(landed.store.jobs[m.workers[t].id])
    {
      AppliedTracks(m, base, token, t);
    }
    SteppedTracks(landed, token, stage);
  }

  lemma AppliedLandTracks(m: Machine, base: Totals, token: Token, acked: bool, fault: Fault, now: nat)
    requires MachineOk(m, base) && AllTracked(m) && token in m.workers && HasWrite(m.workers[token].stage)
    requires Commit(m.store, m.workers[token].stage.write).Some?
    ensures var landed := Landed(m, token, m.workers[token].stage.write, true);
            AllTracked(Go(landed, token, LandStage(landed.store, m.workers[token], token, true, acked, fault, now)))
  {
    var w := m.workers[token];
    var landed := Landed(m, token, w.stage.write, true);
    var stage := LandStage(landed.store, w, token, true, acked, fault, now);
    HeldFits(m, base, token);
    if InFlight(stage) { SenderWasInFlight(landed.store, w, token, true, acked, fault, now); }
    AppliedTracksAll(m, base, token, stage);
  }

  lemma RefusedLandTracks(m: Machine, base: Totals, token: Token, acked: bool, fault: Fault, now: nat)
    requires MachineOk(m, base) && AllTracked(m) && token in m.workers && HasWrite(m.workers[token].stage)
    ensures AllTracked(Go(m, token, LandStage(m.store, m.workers[token], token, false, acked, fault, now)))
  {
    var w := m.workers[token];
    var stage := LandStage(m.store, w, token, false, acked, fault, now);
    HeldFits(m, base, token);
    if InFlight(stage) { SenderWasInFlight(m.store, w, token, false, acked, fault, now); }
    GoTracks(m, token, stage);
  }

  lemma LandTracks(m: Machine, base: Totals, token: Token, delivered: bool, acked: bool, fault: Fault, now: nat)
    requires MachineOk(m, base) && AllTracked(m) && token in m.workers && HasWrite(m.workers[token].stage)
    ensures AllTracked(StepMachine(m, Land(token, delivered, acked, fault, now)))
  {
    LandIsGo(m, token, delivered, acked, fault, now);
    if delivered && Commit(m.store, m.workers[token].stage.write).Some? {
      AppliedLandTracks(m, base, token, acked, fault, now);
    } else {
      RefusedLandTracks(m, base, token, acked, fault, now);
    }
  }

  lemma SteppedTracks(m: Machine, token: Token, stage: Stage)
    requires token in m.workers
    requires forall t :: t in m.workers && InFlight(if t == token then stage else m.workers[t].stage) ==>
               m.workers[t].id in m.store.jobs && Tracked(m.store.jobs[m.workers[t].id])
    ensures AllTracked(Go(m, token, stage))
  {
    var next := Go(m, token, stage);
    assert forall t :: t in next.workers ==>
             t in m.workers
             && next.workers[t] == Worker(m.workers[t].id, if t == token then stage else m.workers[t].stage);
  }

  lemma LandedOnTracked(m: Machine, base: Totals, token: Token, t: Token)
    requires MachineOk(m, base) && AllTracked(m) && token in m.workers && HasWrite(m.workers[token].stage)
    requires t in m.workers && m.workers[t].id == m.workers[token].stage.write.id
    requires Read(m.store, m.workers[t].id) == m.workers[token].stage.write.prior
    requires (t != token && InFlight(m.workers[t].stage))
             || (t == token && (m.workers[t].stage.Reserving? || m.workers[t].stage.Renewing?))
    ensures Tracked(NextJob(m.workers[token].stage.write))
  {
    var w := m.workers[token].stage.write;
    HeldFits(m, base, token);
    if t != token {
      OwnerLeases(m, base, t);
      WriteTracks(m.store.jobs[w.id], t, w, token);
    }
  }

  /** A calling job is leased to the worker that has its attempt. */
  lemma OwnerLeases(m: Machine, base: Totals, t: Token)
    requires MachineOk(m, base) && t in m.workers && InFlight(m.workers[t].stage) && m.workers[t].id in m.store.jobs
    ensures var job := m.store.jobs[m.workers[t].id]; JobOk(job) && (job.phase == Calling ==> LeasedTo(job, t))
  {
    assert StageOk(m.callers, m.calls, t, m.workers[t].id, m.workers[t].stage);
  }

  lemma NewcomerTracks(m: Machine, token: Token, id: Id, stage: Stage)
    requires AllTracked(m) && token !in m.workers && !InFlight(stage)
    ensures AllTracked(Enter(m, token, id, stage))
  {
    var next := Enter(m, token, id, stage);
    assert forall t :: t in next.workers && t != token ==> t in m.workers && next.workers[t] == m.workers[t];
  }

  lemma EnterTracks(m: Machine, e: Event)
    requires AllTracked(m) && (e.Submit? || e.Begin? || e.Resolve? || e.Cancel?)
    ensures AllTracked(StepMachine(m, e))
  {
    if e.token !in m.workers && StepMachine(m, e) != m {
      NewcomerTracks(m, e.token, e.id, StepMachine(m, e).workers[e.token].stage);
    }
  }

  /** One participant goes on; it is in flight afterwards only if it was before. */
  lemma GoTracks(m: Machine, token: Token, stage: Stage)
    requires AllTracked(m) && token in m.workers && (InFlight(stage) ==> InFlight(m.workers[token].stage))
    ensures AllTracked(Go(m, token, stage))
  {
    var next := Go(m, token, stage);
    assert forall t :: t in next.workers ==> t in m.workers && next.workers[t].id == m.workers[t].id;
    assert forall t :: t in next.workers && t != token ==> next.workers[t] == m.workers[t];
  }

  lemma LoadTracks(m: Machine, e: Event)
    requires AllTracked(m) && e.Load?
    ensures AllTracked(StepMachine(m, e))
  {
    if e.token in m.workers && StepMachine(m, e) != m {
      var w := m.workers[e.token];
      GoTracks(m, e.token, LoadStage(Read(m.store, w.id), w.stage, e.token, w.id, e.current, e.fault, e.now));
    }
  }

  lemma CallTracks(m: Machine, e: Event)
    requires AllTracked(m) && (e.Dispatch? || e.Answer?)
    ensures AllTracked(StepMachine(m, e))
  {
    if e.token in m.workers {
      if m.workers[e.token].stage.Armed? { GoTracks(m, e.token, Waiting); }
      if m.workers[e.token].stage.Waiting? && e.Answer? && e.used.Some? {
        GoTracks(m, e.token, Responded(e.used.value, 0));
      }
    }
  }

  lemma SettleTracks(m: Machine, e: Event)
    requires AllTracked(m) && (e.Settle? || e.Catch? || e.Observe?)
    ensures AllTracked(StepMachine(m, e))
  {
    if e.token in m.workers && StepMachine(m, e) != m {
      GoTracks(m, e.token, StepMachine(m, e).workers[e.token].stage);
    }
  }

  lemma ThinkTracks(m: Machine, e: Event)
    requires AllTracked(m)
    requires e.Load? || e.Dispatch? || e.Answer? || e.Settle? || e.Catch? || e.Observe? || e.Switch?
    ensures AllTracked(StepMachine(m, e))
  {
    if e.Load? { LoadTracks(m, e); }
    if e.Dispatch? || e.Answer? { CallTracks(m, e); }
    if e.Settle? || e.Catch? || e.Observe? { SettleTracks(m, e); }
  }

  lemma RecoverTracks(m: Machine, now: nat)
    requires AllTracked(m)
    ensures AllTracked(StepMachine(m, Recover(now)))
  {
    var next := StepMachine(m, Recover(now));
    forall t | t in next.workers && InFlight(next.workers[t].stage)
      ensures next.workers[t].id in next.store.jobs && Tracked(next.store.jobs[next.workers[t].id])
    {
      var id := m.workers[t].id;
      if next != m && id in m.store.control.active {
        assert Recoverable(m.store, id, now);
      }
    }
  }

  lemma StepTracks(m: Machine, base: Totals, e: Event)
    requires MachineOk(m, base) && AllTracked(m)
    ensures AllTracked(StepMachine(m, e))
  {
    if e.Recover? { RecoverTracks(m, e.now); }
    else if e.Submit? || e.Begin? || e.Resolve? || e.Cancel? { EnterTracks(m, e); }
    else if e.Land? {
      if e.token in m.workers && HasWrite(m.workers[e.token].stage) {
        LandTracks(m, base, e.token, e.delivered, e.acked, e.fault, e.now);
      }
    } else { ThinkTracks(m, e); }
  }

  lemma {:induction false} RunTracks(m: Machine, base: Totals, events: seq<Event>)
    requires MachineOk(m, base) && AllTracked(m)
    ensures AllTracked(RunMachine(m, events))
    decreases |events|
  {
    if events != [] {
      StepTracks(m, base, events[0]);
      StepMachineKeeps(m, base, events[0]);
      RunTracks(StepMachine(m, events[0]), base, events[1..]);
    }
  }

  /** While a worker waits for the provider, its job is in the queue, or was retired on proof; it cannot be
      released, retried or called again. */
  lemma UnansweredStaysQueued(totals: Totals, events: seq<Event>, token: Token)
    requires var m := RunMachine(Initial(totals), events); token in m.workers && m.workers[token].stage.Waiting?
    ensures var m := RunMachine(Initial(totals), events);
            var id := m.workers[token].id;
            && id in m.store.jobs
            && (id in m.store.control.active || m.store.jobs[id].proved)
            && !PreCall(Some(m.store.jobs[id]))
  {
    var m := RunMachine(Initial(totals), events);
    Reachable(totals, events);
    RunTracks(Initial(totals), totals, events);
    assert StageOk(m.callers, m.calls, token, m.workers[token].id, m.workers[token].stage);
    assert JobOk(m.store.jobs[m.workers[token].id]);
  }

  // ----- a complete ledger of completions

  /** When as many distinct calls are known to have completed as attempts were ever reserved, every dispatched
      call has completed and every charged job was dispatched. */
  lemma CompleteLedger(totals: Totals, events: seq<Event>, completed: set<Token>, n: nat)
    requires var m := RunMachine(Initial(totals), events);
             && (forall t :: t in completed ==> exists c :: c in m.calls && c.token == t)
             && |completed| == n
             && m.store.totals.tokens == totals.tokens + MAX_TOKENS * n
    ensures var m := RunMachine(Initial(totals), events);
            && (forall c :: c in m.calls ==> c.token in completed)
            && (forall id :: id in m.callers ==> m.callers[id] in completed)
  {
    var m := RunMachine(Initial(totals), events);
    Reachable(totals, events);
    ReservationsConserved(totals, events);
    assert n == |m.callers|;
    ValuesSize(m.callers);
    assert completed <= m.callers.Values;
    SubsetSize(completed, m.callers.Values);
    SubsetOfSameSize(completed, m.callers.Values);
  }

  /** A map has no more values than keys. */
  lemma {:induction false} ValuesSize(callers: map<Id, Token>)
    ensures |callers.Values| <= |callers|
    decreases |callers|
  {
    if id :| id in callers {
      var rest := callers - {id};
      ValuesSize(rest);
      assert callers.Keys == rest.Keys + {id};
      assert callers.Values <= rest.Values + {callers[id]};
      SubsetSize(callers.Values, rest.Values + {callers[id]});
    } else {
      assert callers == map[];
      assert callers.Values == {};
    }
  }
}
