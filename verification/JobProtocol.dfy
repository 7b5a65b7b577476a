/** The protocol's guarantees over every interleaving of its participants. */
module JobProtocol {
  import opened Prelude
  import opened JobStore
  import opened JobMachine
  import opened JobSafety

  predicate BeforeReserving(stage: Stage) { stage.Leasing? || stage.Loading? || stage.Reserving? }

  /** From its acknowledged reservation until it gives up or finishes, a worker owns its job's attempt. */
  predicate Owning(stage: Stage) {
    stage.Reloading? || stage.Renewing? || stage.Confirming? || stage.Armed? || stage.Waiting? || stage.Responded?
    || stage.Completing?
    || (stage.Failing? && stage.failure.called)
  }

  predicate Unsent(stage: Stage) {
    BeforeReserving(stage) || stage.Reloading? || stage.Renewing? || stage.Confirming? || stage.Armed?
    || stage.Releasing? || stage.Observing?
  }

  /** The write a stage holds is one of its own kind, sent on what the participant had checked; usage is known only of
      a call that was answered. */
  predicate StageWriteOk(stage: Stage, id: Id, token: Token) {
    match stage
    case Leasing(w) => w.id == id && w.change.TakeLease? && Applicable(w) && WriteOk(w, token)
    case Reserving(w) => w.id == id && w.change.Reserve? && Applicable(w) && WriteOk(w, token)
    case Renewing(w) => w.id == id && w.change.Renew? && Applicable(w) && WriteOk(w, token)
    case Completing(w, _, _) => w.id == id && w.change.Succeed? && Applicable(w) && WriteOk(w, token)
    case Closing(w) =>
      w.id == id && (w.change.Enqueue? || w.change.Retry? || w.change.End? || w.change.Reconcile?) && Applicable(w)
      && WriteOk(w, token)
    case Releasing(w) => w.id == id && w.change.Release? && Applicable(w) && WriteOk(w, token)
    case Failing(f) => f.observed.Some? ==> f.responded
    case _ => true
  }

  ghost predicate StageOk(callers: map<Id, Token>, calls: seq<Call>, token: Token, id: Id, stage: Stage) {
    && StageWriteOk(stage, id, token)
    && (BeforeReserving(stage) ==> !(id in callers && callers[id] == token))
    && (Owning(stage) ==> id in callers && callers[id] == token)
    && (Unsent(stage) ==> forall c :: c in calls ==> c.token != token)
  }

  ghost predicate WorkersOk(m: Machine) {
    && (forall t :: t in m.workers ==> StageOk(m.callers, m.calls, t, m.workers[t].id, m.workers[t].stage))
    && (forall id :: id in m.callers ==> m.callers[id] in m.workers && m.workers[m.callers[id]].id == id)
  }

  predicate OtherToken(a: Call, b: Call) { a.token != b.token }

  ghost predicate CallsOk(m: Machine) {
    && Pairwise(m.calls, OtherToken)
    && forall c :: c in m.calls ==> c.id in m.callers && m.callers[c.id] == c.token
  }

  ghost predicate IsCancelled(store: Store, id: Id) {
    id in store.jobs && store.jobs[id].phase == Dead && store.jobs[id].reason == Some(Cancelled)
  }

  ghost predicate MachineOk(m: Machine, base: Totals) {
    && StoreOk(m.store, m.callers, base)
    && WorkersOk(m)
    && CallsOk(m)
    && forall id :: id in m.reported ==> IsCancelled(m.store, id)
  }

  // ----- one step

  lemma GoKeeps(m: Machine, base: Totals, token: Token, id: Id, stage: Stage)
    requires MachineOk(m, base) && StageOk(m.callers, m.calls, token, id, stage)
    requires token in m.workers ==> m.workers[token].id == id
    ensures MachineOk(Enter(m, token, id, stage), base)
  {
    var next := Enter(m, token, id, stage);
    assert forall t :: t in next.workers && t != token ==> next.workers[t] == m.workers[t];
  }

  /** A token nobody has used has neither reserved nor called. */
  lemma NewcomerOk(m: Machine, base: Totals, token: Token, id: Id, stage: Stage)
    requires MachineOk(m, base) && token !in m.workers && !Owning(stage) && StageWriteOk(stage, id, token)
    ensures StageOk(m.callers, m.calls, token, id, stage)
  {
    forall c | c in m.calls ensures c.token != token {
      assert c.id in m.callers && m.callers[c.id] == c.token;
    }
  }

  lemma NewcomerKeeps(m: Machine, base: Totals, token: Token, id: Id, stage: Stage)
    requires MachineOk(m, base) && token !in m.workers && !Owning(stage) && StageWriteOk(stage, id, token)
    ensures MachineOk(Enter(m, token, id, stage), base)
  {
    NewcomerOk(m, base, token, id, stage);
    GoKeeps(m, base, token, id, stage);
  }

  lemma BeginKeeps(m: Machine, base: Totals, token: Token, id: Id, span: nat, now: nat)
    requires MachineOk(m, base) && token !in m.workers
    ensures MachineOk(Enter(m, token, id, BeginStage(Read(m.store, id), token, id, span, now)), base)
  {
    assert id in m.store.jobs ==> JobOk(m.store.jobs[id]);
    NewcomerKeeps(m, base, token, id, BeginStage(Read(m.store, id), token, id, span, now));
  }

  lemma SubmitKeeps(m: Machine, base: Totals, e: Event)
    requires MachineOk(m, base) && e.Submit?
    ensures MachineOk(StepMachine(m, e), base)
  {
    if StepMachine(m, e) != m {
      NewcomerKeeps(m, base, e.token, e.id, Closing(Write(e.id, Read(m.store, e.id), Enqueue(e.reference, e.now))));
    }
  }

  lemma ResolveKeeps(m: Machine, base: Totals, e: Event)
    requires MachineOk(m, base) && e.Resolve?
    ensures MachineOk(StepMachine(m, e), base)
  {
    if StepMachine(m, e) != m {
      NewcomerKeeps(m, base, e.token, e.id, Closing(Write(e.id, Read(m.store, e.id), Reconcile(e.evidence))));
    }
  }

  lemma CancelKeeps(m: Machine, base: Totals, e: Event)
    requires MachineOk(m, base) && e.Cancel?
    ensures MachineOk(StepMachine(m, e), base)
  {
    if StepMachine(m, e) != m {
      NewcomerKeeps(m, base, e.token, e.id, StepMachine(m, e).workers[e.token].stage);
    }
  }

  /** A participant that is there goes on to a stage that fits. */
  lemma WorkerGoes(m: Machine, base: Totals, token: Token, stage: Stage)
    requires MachineOk(m, base) && token in m.workers
    requires StageOk(m.callers, m.calls, token, m.workers[token].id, stage)
    ensures MachineOk(Go(m, token, stage), base)
  {
    GoKeeps(m, base, token, m.workers[token].id, stage);
    assert Go(m, token, stage) == Enter(m, token, m.workers[token].id, stage);
  }

  lemma LoadStageOk(m: Machine, token: Token, id: Id, stage: Stage, current: bool, fault: Fault, now: nat)
    requires (stage.Loading? || stage.Reloading? || stage.Confirming?) && StageOk(m.callers, m.calls, token, id, stage)
    requires id in m.store.jobs ==> JobOk(m.store.jobs[id])
    ensures StageOk(m.callers, m.calls, token, id,
                    LoadStage(Read(m.store, id), stage, token, id, current, fault, now))
  {
  }

  lemma LoadKeeps(m: Machine, base: Totals, e: Event)
    requires MachineOk(m, base) && e.Load?
    ensures MachineOk(StepMachine(m, e), base)
  {
    if e.token in m.workers {
      var w := m.workers[e.token];
      if w.stage.Loading? || w.stage.Reloading? || w.stage.Confirming? {
        assert StageOk(m.callers, m.calls, e.token, w.id, w.stage);
        LoadStageOk(m, e.token, w.id, w.stage, e.current, e.fault, e.now);
        WorkerGoes(m, base, e.token, LoadStage(Read(m.store, w.id), w.stage, e.token, w.id, e.current, e.fault, e.now));
      }
    }
  }

  /** Whoever owns an attempt may give up. */
  lemma FailureFits(m: Machine, token: Token, f: Failure)
    requires WorkersOk(m) && token in m.workers && Owning(m.workers[token].stage) && (f.observed.Some? ==> f.responded)
    ensures StageOk(m.callers, m.calls, token, m.workers[token].id, Failing(f))
  {
    assert StageOk(m.callers, m.calls, token, m.workers[token].id, m.workers[token].stage);
  }

  lemma DeniedKeeps(m: Machine, base: Totals, token: Token)
    requires MachineOk(m, base) && token in m.workers && m.workers[token].stage.Armed?
    ensures MachineOk(StepMachine(m, Dispatch(token, false)), base)
  {
    FailureFits(m, token, Failure(true, false, OtherFault, None));
    WorkerGoes(m, base, token, Failing(Failure(true, false, OtherFault, None)));
  }

  /** Whoever waits for the provider may hear from it. */
  lemma ResponseFits(m: Machine, token: Token, used: nat)
    requires WorkersOk(m) && token in m.workers && m.workers[token].stage.Waiting?
    ensures StageOk(m.callers, m.calls, token, m.workers[token].id, Responded(used, 0))
  {
    assert StageOk(m.callers, m.calls, token, m.workers[token].id, m.workers[token].stage);
  }

  /** What was answered is only noted. */
  lemma AnsweredKeeps(m: Machine, base: Totals, answered: map<Token, nat>)
    requires MachineOk(m, base)
    ensures MachineOk(m.(answered := answered), base)
  {
  }

  lemma AnswerKeeps(m: Machine, base: Totals, e: Event)
    requires MachineOk(m, base) && e.Answer?
    ensures MachineOk(StepMachine(m, e), base)
  {
    if e.token in m.workers && m.workers[e.token].stage.Waiting? {
      if e.used.Some? && e.used.value <= MAX_TOKENS {
        ResponseFits(m, e.token, e.used.value);
      } else if e.used.Some? {
        FailureFits(m, e.token, Failure(true, true, Invalid, None));
      } else {
        FailureFits(m, e.token, Failure(true, e.responded, if e.responded then Invalid else e.fault, None));
      }
      WorkerGoes(m, base, e.token, StepMachine(m, e).workers[e.token].stage);
      AnsweredKeeps(Go(m, e.token, StepMachine(m, e).workers[e.token].stage), base, StepMachine(m, e).answered);
    }
  }

  /** A worker whose job is still leased to it and calling may complete it. */
  lemma CompletionFits(m: Machine, base: Totals, token: Token, now: nat)
    requires MachineOk(m, base) && token in m.workers && m.workers[token].stage.Responded?
    requires Holds(Read(m.store, m.workers[token].id), m.workers[token].id, token, now)
    ensures var w := m.workers[token];
            StageOk(m.callers, m.calls, token, w.id,
                    Completing(Write(w.id, Read(m.store, w.id), Succeed(w.stage.used)), w.stage.used, w.stage.round))
  {
    var w := m.workers[token];
    assert StageOk(m.callers, m.calls, token, w.id, w.stage);
    assert w.id in m.store.jobs && JobOk(m.store.jobs[w.id]);
  }

  lemma SettleKeeps(m: Machine, base: Totals, e: Event)
    requires MachineOk(m, base) && e.Settle?
    ensures MachineOk(StepMachine(m, e), base)
  {
    if e.token in m.workers && m.workers[e.token].stage.Responded? {
      var w := m.workers[e.token];
      if e.current && Holds(Read(m.store, w.id), w.id, e.token, e.now) {
        CompletionFits(m, base, e.token, e.now);
      } else {
        FailureFits(m, e.token,
                    Failure(true, true, if e.current then OtherFault else e.fault, Some(w.stage.used)));
      }
      WorkerGoes(m, base, e.token, StepMachine(m, e).workers[e.token].stage);
    }
  }

  /** What the failure handler writes is a legal end, or a retry of a job that was never charged. */
  lemma CatchStageOk(prior: Snapshot, token: Token, id: Id, f: Failure, now: nat)
    requires prior.job.Some? ==> JobOk(prior.job.value)
    requires f.called ==> prior.job.Some? && prior.job.value.attempts == 1
    requires f.observed.Some? ==> f.responded
    ensures StageWriteOk(CatchStage(prior, token, id, f, now), id, token)
  {
  }

  lemma CatchKeeps(m: Machine, base: Totals, e: Event)
    requires MachineOk(m, base) && e.Catch?
    ensures MachineOk(StepMachine(m, e), base)
  {
    if e.token in m.workers && m.workers[e.token].stage.Failing? {
      var w := m.workers[e.token];
      assert StageOk(m.callers, m.calls, e.token, w.id, w.stage);
      CatchStageOk(Read(m.store, w.id), e.token, w.id, w.stage.failure, e.now);
      WorkerGoes(m, base, e.token,
                 CatchStage(Read(m.store, w.id), e.token, w.id, w.stage.failure, e.now));
    }
  }

  /** One more call, by a token that has made none. */
  lemma CallAppended(calls: seq<Call>, c: Call)
    requires Pairwise(calls, OtherToken) && forall x :: x in calls ==> x.token != c.token
    ensures Pairwise(calls + [c], OtherToken)
  {
    var next := calls + [c];
    forall i, j | 0 <= i < j < |next| ensures OtherToken(next[i], next[j]) {
      if j < |calls| { assert OtherToken(calls[i], calls[j]); } else { assert calls[i] in calls; }
    }
  }

  /** A call makes no stage unfit but an unsent one of its own token. */
  lemma CalledStages(m: Machine, token: Token, c: Call)
    requires WorkersOk(m) && token in m.workers && m.workers[token].stage.Armed? && c.token == token
    ensures forall t :: t in m.workers && t != token ==>
              StageOk(m.callers, m.calls + [c], t, m.workers[t].id, m.workers[t].stage)
    ensures StageOk(m.callers, m.calls + [c], token, m.workers[token].id, Waiting)
  {
    forall t | t in m.workers && t != token
      ensures StageOk(m.callers, m.calls + [c], t, m.workers[t].id, m.workers[t].stage)
    {
      assert StageOk(m.callers, m.calls, t, m.workers[t].id, m.workers[t].stage);
    }
    assert StageOk(m.callers, m.calls, token, m.workers[token].id, m.workers[token].stage);
  }

  lemma DispatchKeeps(m: Machine, base: Totals, token: Token)
    requires MachineOk(m, base) && token in m.workers && m.workers[token].stage.Armed?
    ensures MachineOk(StepMachine(m, Dispatch(token, true)), base)
  {
    var w := m.workers[token];
    var next := Go(m, token, Waiting).(calls := m.calls + [Call(w.id, token)]);
    assert StageOk(m.callers, m.calls, token, w.id, w.stage);
    CallAppended(m.calls, Call(w.id, token));
    CalledStages(m, token, Call(w.id, token));
    CalledWorkers(m, next, token);
  }

  lemma CalledWorkers(m: Machine, next: Machine, token: Token)
    requires WorkersOk(m) && token in m.workers && next.workers == Go(m, token, Waiting).workers
    requires next.callers == m.callers
    requires forall t :: t in m.workers && t != token ==>
               StageOk(m.callers, next.calls, t, m.workers[t].id, m.workers[t].stage)
    requires StageOk(m.callers, next.calls, token, m.workers[token].id, Waiting)
    ensures WorkersOk(next)
  {
    assert forall t :: t in next.workers && t != token ==> next.workers[t] == m.workers[t];
  }

  lemma ObserveKeeps(m: Machine, base: Totals, token: Token)
    requires MachineOk(m, base)
    ensures MachineOk(StepMachine(m, Observe(token)), base)
  {
    if token in m.workers && m.workers[token].stage.Observing? {
      var id := m.workers[token].id;
      WorkerGoes(m, base, token, Done);
      if IsCancelled(m.store, id) { ReportKeeps(Go(m, token, Done), base, id); }
    }
  }

  lemma ReportKeeps(m: Machine, base: Totals, id: Id)
    requires MachineOk(m, base) && IsCancelled(m.store, id)
    ensures MachineOk(m.(reported := m.reported + {id}), base)
  {
  }

  /** A write that takes effect never touches a cancelled job. */
  lemma CancelledStays(store: Store, w: Write, token: Token, id: Id)
    requires Applicable(w) && WriteOk(w, token) && Read(store, w.id) == w.prior && IsCancelled(store, id)
    requires JobOk(store.jobs[id])
    ensures w.id != id
  {
  }

  lemma LandedReports(m: Machine, base: Totals, w: Write, token: Token)
    requires MachineOk(m, base) && Applicable(w) && WriteOk(w, token) && Commit(m.store, w).Some?
    ensures forall id :: id in m.reported ==> IsCancelled(Commit(m.store, w).value, id)
  {
    forall id | id in m.reported ensures IsCancelled(Commit(m.store, w).value, id) {
      CancelledStays(m.store, w, token, id);
    }
  }

  /** A job is reserved for the first time, or not at all. */
  lemma ReservedOnce(store: Store, callers: map<Id, Token>, base: Totals, w: Write, token: Token)
    requires StoreOk(store, callers, base) && Lands(store, callers, w, token) && w.change.Reserve?
    ensures w.id !in callers
  {
    assert JobOk(store.jobs[w.id]);
    ReservesLeased(store, callers, w, token);
  }

  /** The write a stage holds is one of the protocol's, and Lands says when it takes effect. */
  lemma StageLands(store: Store, callers: map<Id, Token>, calls: seq<Call>, token: Token, id: Id, stage: Stage)
    requires StageOk(callers, calls, token, id, stage) && HasWrite(stage) && Commit(store, stage.write).Some?
    ensures Lands(store, callers, stage.write, token) && stage.write.id == id
  {
  }

  lemma HeldWriteLands(m: Machine, base: Totals, token: Token)
    requires MachineOk(m, base) && token in m.workers && HasWrite(m.workers[token].stage)
    requires Commit(m.store, m.workers[token].stage.write).Some?
    ensures Lands(m.store, m.callers, m.workers[token].stage.write, token)
    ensures m.workers[token].stage.write.id == m.workers[token].id
  {
    StageLands(m.store, m.callers, m.calls, token, m.workers[token].id, m.workers[token].stage);
  }

  lemma LandedKeeps(m: Machine, base: Totals, token: Token)
    requires MachineOk(m, base) && token in m.workers && HasWrite(m.workers[token].stage)
    requires Commit(m.store, m.workers[token].stage.write).Some?
    ensures var next := Landed(m, token, m.workers[token].stage.write, true);
            && StoreOk(next.store, next.callers, base)
            && (forall id :: id in m.reported ==> IsCancelled(next.store, id))
            && (m.workers[token].stage.write.change.Reserve? ==> m.workers[token].id !in m.callers)
            && next.callers == NextCallers(m.callers, m.workers[token].stage.write, token)
  {
    var w := m.workers[token].stage.write;
    HeldWriteLands(m, base, token);
    CommitKeeps(m.store, m.callers, base, w, token);
    LandedReports(m, base, w, token);
    if w.change.Reserve? { ReservedOnce(m.store, m.callers, base, w, token); }
  }

  /** Everybody else's stage is as good after one more reservation. */
  lemma StagesSurvive(m: Machine, base: Totals, token: Token, callers: map<Id, Token>)
    requires MachineOk(m, base) && token in m.workers
    requires callers == m.callers
             || (m.workers[token].id !in m.callers && callers == m.callers[m.workers[token].id := token])
    ensures forall t :: t in m.workers && t != token ==>
              StageOk(callers, m.calls, t, m.workers[t].id, m.workers[t].stage)
  {
    forall t | t in m.workers && t != token ensures StageOk(callers, m.calls, t, m.workers[t].id, m.workers[t].stage) {
      assert StageOk(m.callers, m.calls, t, m.workers[t].id, m.workers[t].stage);
    }
  }

  /** The stage a participant goes on with fits its job's caller as it is after the write. */
  lemma LandStageOk(store: Store, callers: map<Id, Token>, calls: seq<Call>, w: Worker, token: Token, applied: bool,
                    acked: bool, fault: Fault, now: nat)
    requires StageOk(callers, calls, token, w.id, w.stage) && HasWrite(w.stage)
    ensures var callers' := if applied then NextCallers(callers, w.stage.write, token) else callers;
            StageOk(callers', calls, token, w.id, LandStage(store, w, token, applied, acked, fault, now))
  {
  }

  /** An arrival is the landing of the write and the next stage of its sender. */
  lemma LandIsGo(m: Machine, token: Token, delivered: bool, acked: bool, fault: Fault, now: nat)
    requires token in m.workers && HasWrite(m.workers[token].stage)
    ensures var w := m.workers[token];
            var applied := delivered && Commit(m.store, w.stage.write).Some?;
            var landed := Landed(m, token, w.stage.write, applied);
            StepMachine(m, Land(token, delivered, acked, fault, now)) ==
              Go(landed, token, LandStage(landed.store, w, token, applied, acked, fault, now))
  {
  }

  lemma HeldStageOk(m: Machine, base: Totals, token: Token)
    requires MachineOk(m, base) && token in m.workers
    ensures StageOk(m.callers, m.calls, token, m.workers[token].id, m.workers[token].stage)
  {
  }

  lemma AppliedLandKeeps(m: Machine, base: Totals, token: Token, acked: bool, fault: Fault, now: nat)
    requires MachineOk(m, base) && token in m.workers && HasWrite(m.workers[token].stage)
    requires Commit(m.store, m.workers[token].stage.write).Some?
    ensures var landed := Landed(m, token, m.workers[token].stage.write, true);
            MachineOk(Go(landed, token, LandStage(landed.store, m.workers[token], token, true, acked, fault, now)),
                      base)
  {
    var w := m.workers[token];
    var landed := Landed(m, token, w.stage.write, true);
    var stage := LandStage(landed.store, w, token, true, acked, fault, now);
    HeldStageOk(m, base, token);
    LandedKeeps(m, base, token);
    StagesSurvive(m, base, token, landed.callers);
    LandStageOk(landed.store, m.callers, m.calls, w, token, true, acked, fault, now);
    LandedWorkers(m, token, landed, stage);
  }

  lemma RefusedLandKeeps(m: Machine, base: Totals, token: Token, acked: bool, fault: Fault, now: nat)
    requires MachineOk(m, base) && token in m.workers && HasWrite(m.workers[token].stage)
    ensures MachineOk(Go(m, token, LandStage(m.store, m.workers[token], token, false, acked, fault, now)), base)
  {
    HeldStageOk(m, base, token);
    LandStageOk(m.store, m.callers, m.calls, m.workers[token], token, false, acked, fault, now);
    WorkerGoes(m, base, token, LandStage(m.store, m.workers[token], token, false, acked, fault, now));
  }

  lemma LandKeeps(m: Machine, base: Totals, token: Token, delivered: bool, acked: bool, fault: Fault, now: nat)
    requires MachineOk(m, base) && token in m.workers && HasWrite(m.workers[token].stage)
    ensures MachineOk(StepMachine(m, Land(token, delivered, acked, fault, now)), base)
  {
    LandIsGo(m, token, delivered, acked, fault, now);
    if delivered && Commit(m.store, m.workers[token].stage.write).Some? {
      AppliedLandKeeps(m, base, token, acked, fault, now);
    } else {
      RefusedLandKeeps(m, base, token, acked, fault, now);
    }
  }

  lemma LandedWorkers(m: Machine, token: Token, landed: Machine, stage: Stage)
    requires WorkersOk(m) && CallsOk(m) && token in m.workers
    requires landed.workers == m.workers && landed.calls == m.calls
    requires landed.callers == m.callers
             || (m.workers[token].id !in m.callers && landed.callers == m.callers[m.workers[token].id := token])
    requires forall t :: t in m.workers && t != token ==>
               StageOk(landed.callers, m.calls, t, m.workers[t].id, m.workers[t].stage)
    requires StageOk(landed.callers, m.calls, token, m.workers[token].id, stage)
    ensures WorkersOk(Go(landed, token, stage)) && CallsOk(Go(landed, token, stage))
  {
    var next := Go(landed, token, stage);
    assert forall t :: t in next.workers ==> t in m.workers && next.workers[t].id == m.workers[t].id;
    assert forall t :: t in next.workers && t != token ==> next.workers[t] == m.workers[t];
  }

  lemma SwitchStoreOk(store: Store, callers: map<Id, Token>, base: Totals, enabled: bool)
    requires StoreOk(store, callers, base)
    ensures StoreOk(Switched(store, enabled), callers, base)
  {
  }

  /** Participants and calls are judged by the callers alone, not by the records. */
  lemma StoreReplaced(m: Machine, base: Totals, store: Store)
    requires MachineOk(m, base) && StoreOk(store, m.callers, base)
    requires forall id :: id in m.reported ==> IsCancelled(store, id)
    ensures MachineOk(m.(store := store), base)
  {
  }

  function Switched(store: Store, enabled: bool): Store {
    store.(control := store.control.(enabled := enabled, revision := store.control.revision + 1))
  }

  lemma SwitchReplaces(m: Machine, enabled: bool)
    ensures StepMachine(m, Switch(enabled)) == m.(store := Switched(m.store, enabled))
    ensures forall id :: IsCancelled(Switched(m.store, enabled), id) <==> IsCancelled(m.store, id)
  {
  }

  lemma SwitchKeeps(m: Machine, base: Totals, enabled: bool)
    requires MachineOk(m, base)
    ensures MachineOk(StepMachine(m, Switch(enabled)), base)
  {
    SwitchReplaces(m, enabled);
    SwitchStoreOk(m.store, m.callers, base, enabled);
    StoreReplaced(m, base, Switched(m.store, enabled));
  }

  lemma RecoverEventKeeps(m: Machine, base: Totals, now: nat)
    requires MachineOk(m, base)
    ensures MachineOk(StepMachine(m, Recover(now)), base)
  {
    if StepMachine(m, Recover(now)) != m {
      RecoverKeeps(m.store, m.callers, base, now);
      forall id | id in m.reported ensures IsCancelled(RecoverAll(m.store), id) {
        assert IsCancelled(m.store, id);
      }
      StoreReplaced(m, base, RecoverAll(m.store));
    }
  }

  lemma DispatchEventKeeps(m: Machine, base: Totals, token: Token, allowed: bool)
    requires MachineOk(m, base)
    ensures MachineOk(StepMachine(m, Dispatch(token, allowed)), base)
  {
    if token in m.workers && m.workers[token].stage.Armed? {
      if allowed { DispatchKeeps(m, base, token); } else { DeniedKeeps(m, base, token); }
    }
  }

  lemma BeginEventKeeps(m: Machine, base: Totals, e: Event)
    requires MachineOk(m, base) && e.Begin?
    ensures MachineOk(StepMachine(m, e), base)
  {
    if e.token !in m.workers { BeginKeeps(m, base, e.token, e.id, e.span, e.now); }
  }

  lemma LandEventKeeps(m: Machine, base: Totals, e: Event)
    requires MachineOk(m, base) && e.Land?
    ensures MachineOk(StepMachine(m, e), base)
  {
    if e.token in m.workers && HasWrite(m.workers[e.token].stage) {
      LandKeeps(m, base, e.token, e.delivered, e.acked, e.fault, e.now);
    }
  }

  lemma StepMachineKeeps(m: Machine, base: Totals, e: Event)
    requires MachineOk(m, base)
    ensures MachineOk(StepMachine(m, e), base)
  {
    match e
    case Switch(enabled) => SwitchKeeps(m, base, enabled);
    case Recover(now) => RecoverEventKeeps(m, base, now);
    case Submit(_, _, _, _) => SubmitKeeps(m, base, e);
    case Resolve(_, _, _) => ResolveKeeps(m, base, e);
    case Cancel(_, _, _, _) => CancelKeeps(m, base, e);
    case Load(_, _, _, _) => LoadKeeps(m, base, e);
    case Answer(_, _, _, _) => AnswerKeeps(m, base, e);
    case Settle(_, _, _, _) => SettleKeeps(m, base, e);
    case Catch(_, _) => CatchKeeps(m, base, e);
    case Observe(token) => ObserveKeeps(m, base, token);
    case Begin(_, _, _, _) => BeginEventKeeps(m, base, e);
    case Dispatch(token, allowed) => DispatchEventKeeps(m, base, token, allowed);
    case Land(_, _, _, _, _) => LandEventKeeps(m, base, e);
  }

  lemma {:induction false} RunMachineKeeps(m: Machine, base: Totals, events: seq<Event>)
    requires MachineOk(m, base)
    ensures MachineOk(RunMachine(m, events), base)
    decreases |events|
  {
    if events != [] {
      StepMachineKeeps(m, base, events[0]);
      RunMachineKeeps(StepMachine(m, events[0]), base, events[1..]);
    }
  }

  lemma Reachable(totals: Totals, events: seq<Event>)
    ensures MachineOk(RunMachine(Initial(totals), events), totals)
  {
    RunMachineKeeps(Initial(totals), totals, events);
  }

  lemma {:induction false} RunConcat(m: Machine, first: seq<Event>, second: seq<Event>)
    ensures RunMachine(m, first + second) == RunMachine(RunMachine(m, first), second)
    decreases |first|
  {
    if first == [] {
      assert first + second == second;
    } else {
      assert (first + second)[1..] == first[1..] + second;
      RunConcat(StepMachine(m, first[0]), first[1..], second);
    }
  }

  lemma RunTwo(m: Machine, a: Event, b: Event)
    ensures RunMachine(m, [a, b]) == StepMachine(StepMachine(m, a), b)
  {
    assert [a, b][1..] == [b] && [b][1..] == [];
    assert RunMachine(m, [a, b]) == RunMachine(StepMachine(m, a), [b]);
  }

  lemma RunThree(m: Machine, a: Event, b: Event, c: Event)
    ensures RunMachine(m, [a, b, c]) == StepMachine(StepMachine(StepMachine(m, a), b), c)
  {
    assert [a, b, c][1..] == [b, c] && [b, c][1..] == [c] && [c][1..] == [];
    var first := StepMachine(m, a);
    var second := StepMachine(first, b);
    assert RunMachine(m, [a, b, c]) == RunMachine(first, [b, c]);
    assert RunMachine(first, [b, c]) == RunMachine(second, [c]);
  }

  // ----- the guarantees

  lemma CallsApart(m: Machine, base: Totals, i: nat, j: nat)
    requires MachineOk(m, base) && i < j < |m.calls|
    ensures m.calls[i].id != m.calls[j].id
  {
    assert OtherToken(m.calls[i], m.calls[j]);
    assert m.calls[i] in m.calls && m.calls[j] in m.calls;
  }

  /** No job is ever sent to the provider twice, whatever crashes, lost acknowledgements and races happen. */
  lemma OneCallPerJob(totals: Totals, events: seq<Event>, i: nat, j: nat)
    requires var m := RunMachine(Initial(totals), events); i < j < |m.calls|
    ensures var m := RunMachine(Initial(totals), events); m.calls[i].id != m.calls[j].id
  {
    Reachable(totals, events);
    CallsApart(RunMachine(Initial(totals), events), totals, i, j);
  }

  /** What has been reserved since the start is exactly one attempt's worth for each charged job. */
  lemma ReservationsConserved(totals: Totals, events: seq<Event>)
    ensures var m := RunMachine(Initial(totals), events);
            && m.store.totals.tokens == totals.tokens + MAX_TOKENS * |m.callers|
            && m.store.totals.cost == totals.cost + MAX_COST * |m.callers|
            && (forall c :: c in m.calls ==> c.id in m.callers && m.callers[c.id] == c.token)
  {
    Reachable(totals, events);
  }

  /** A job reported as cancelled was never sent to the provider, and no later step can send it or change it. */
  lemma CancelledNeverCalled(totals: Totals, events: seq<Event>, later: seq<Event>, id: Id)
    requires id in RunMachine(Initial(totals), events).reported
    ensures var m := RunMachine(RunMachine(Initial(totals), events), later);
            IsCancelled(m.store, id) && forall c :: c in m.calls ==> c.id != id
  {
    Reachable(totals, events);
    RunMachineKeeps(RunMachine(Initial(totals), events), totals, later);
    ReportsStay(RunMachine(Initial(totals), events), later);
    var m := RunMachine(RunMachine(Initial(totals), events), later);
    assert JobOk(m.store.jobs[id]);
  }

  lemma {:induction false} ReportsStay(m: Machine, events: seq<Event>)
    ensures m.reported <= RunMachine(m, events).reported
    decreases |events|
  {
    if events != [] { ReportsStay(StepMachine(m, events[0]), events[1..]); }
  }

  /** The queue lists exactly the unfinished jobs, and at most two jobs hold a lease or await a verdict. */
  lemma QueueMatchesJobs(totals: Totals, events: seq<Event>)
    ensures QueueOk(RunMachine(Initial(totals), events).store.control, RunMachine(Initial(totals), events).store.jobs)
  {
    Reachable(totals, events);
  }
}
