/** What the record of a job says of its retries, its charge and its usage, over every interleaving. */
module JobOutcomes {
  import opened Prelude
  import opened JobStore
  import opened JobMachine
  import opened JobSafety
  import opened JobProtocol

  /** The reasons of a job that was given up before it was charged. */
  predicate BeforeCharge(reason: Reason) {
    reason in {Expired, Disabled, RetryLimit, Budget, Cancelled}
  }

  /** The caller of the job was answered with this usage. */
  ghost predicate UsageAnswered(id: Id, used: nat, callers: map<Id, Token>, answered: map<Token, nat>) {
    id in callers && callers[id] in answered && answered[callers[id]] == used
  }

  /** The failures of a job are its retries, its usage is what its one call was answered with, unless it was retired on
      proof, and its reason says whether it was charged. */
  ghost predicate JobSound(id: Id, job: Job, callers: map<Id, Token>, answered: map<Token, nat>, retries: nat) {
    && job.failures == retries <= MAX_FAILURES
    && (job.usage.Some? ==> job.usage.value <= job.reservedTokens)
    && (job.usage.Some? && !job.proved ==> UsageAnswered(id, job.usage.value, callers, answered))
    && (job.phase == Succeeded ==> job.usage.Some? && !job.proved)
    && (job.reason.Some? && BeforeCharge(job.reason.value) ==> job.attempts == 0)
    && (job.reason == Some(InvalidOutput) ==> job.attempts == 1)
    && (job.proved ==> job.reason == Some(Stale) && job.attempts == 1)
  }

  /** The stages before a provider call is answered. */
  predicate Unanswered(stage: Stage) {
    BeforeReserving(stage) || stage.Reloading? || stage.Renewing? || stage.Confirming? || stage.Armed? || stage.Waiting?
  }

  predicate Answers(answered: map<Token, nat>, token: Token, used: nat) {
    token in answered && answered[token] == used
  }

  /** An end notes no usage but the worker's own, and its reason fits the charge. */
  predicate EndSound(prior: Option<Job>, reason: Reason, observed: Option<nat>, token: Token,
                     answered: map<Token, nat>) {
    && prior.Some?
    && (observed.Some? ==> reason != ProviderUnconfirmed && prior.value.phase == Calling
                           && Answers(answered, token, observed.value))
    && (BeforeCharge(reason) ==> prior.value.phase != Calling)
    && (reason == InvalidOutput ==> prior.value.phase == Calling)
  }

  predicate WriteSound(w: Write, token: Token, answered: map<Token, nat>) {
    match w.change
    case Succeed(used) => Answers(answered, token, used)
    case Retry(_) => w.prior.job.Some? && w.prior.job.value.failures < MAX_FAILURES
    case End(reason, observed) => EndSound(w.prior.job, reason, observed, token, answered)
    case Reconcile(evidence) =>
      w.prior.job.Some? && (evidence.Some? ==> evidence.value <= w.prior.job.value.reservedTokens)
    case _ => true
  }

  predicate StageSound(stage: Stage, token: Token, answered: map<Token, nat>) {
    && (Unanswered(stage) ==> token !in answered)
    && match stage
       case Responded(used, round) => Answers(answered, token, used) && round <= 2
       case Completing(w, used, round) => w.change == Succeed(used) && Answers(answered, token, used) && round <= 2
       case Failing(f) => f.observed.Some? ==> f.called && Answers(answered, token, f.observed.value)
       case Closing(w) => WriteSound(w, token, answered)
       case _ => true
  }

  ghost predicate JobsSound(store: Store, callers: map<Id, Token>, answered: map<Token, nat>, retried: multiset<Id>) {
    && (forall id :: id in store.jobs ==> JobSound(id, store.jobs[id], callers, answered, retried[id]))
    && forall id :: id !in store.jobs ==> id !in retried
  }

  ghost predicate StagesSound(m: Machine) {
    forall t :: t in m.workers ==> StageSound(m.workers[t].stage, t, m.answered)
  }

  ghost predicate AnswersOk(m: Machine) {
    forall t :: t in m.answered ==> t in m.workers && m.answered[t] <= MAX_TOKENS
  }

  ghost predicate OutcomesOk(m: Machine) {
    JobsSound(m.store, m.callers, m.answered, m.retried) && StagesSound(m) && AnswersOk(m)
  }

  // ----- steps that write nothing

  lemma EnterSound(m: Machine, token: Token, id: Id, stage: Stage)
    requires OutcomesOk(m) && StageSound(stage, token, m.answered)
    ensures OutcomesOk(Enter(m, token, id, stage))
  {
  }

  lemma GoSound(m: Machine, token: Token, stage: Stage)
    requires OutcomesOk(m) && token in m.workers && StageSound(stage, token, m.answered)
    ensures OutcomesOk(Go(m, token, stage))
  {
    EnterSound(m, token, m.workers[token].id, stage);
    assert Go(m, token, stage) == Enter(m, token, m.workers[token].id, stage);
  }

  /** Who is new has been answered nothing. */
  lemma NewcomerSound(m: Machine, token: Token, id: Id, stage: Stage)
    requires OutcomesOk(m) && token !in m.workers && (token !in m.answered ==> StageSound(stage, token, m.answered))
    ensures OutcomesOk(Enter(m, token, id, stage))
  {
    EnterSound(m, token, id, stage);
  }

  lemma BeginStageSound(prior: Snapshot, token: Token, id: Id, span: nat, now: nat, answered: map<Token, nat>)
    requires token !in answered
    ensures StageSound(BeginStage(prior, token, id, span, now), token, answered)
  {
  }

  lemma BeginSound(m: Machine, e: Event)
    requires OutcomesOk(m) && e.Begin?
    ensures OutcomesOk(StepMachine(m, e))
  {
    if e.token !in m.workers {
      BeginStageSound(Read(m.store, e.id), e.token, e.id, e.span, e.now, m.answered);
      NewcomerSound(m, e.token, e.id, BeginStage(Read(m.store, e.id), e.token, e.id, e.span, e.now));
    }
  }

  lemma RequestSound(m: Machine, e: Event)
    requires OutcomesOk(m) && (e.Submit? || e.Resolve? || e.Cancel?)
    ensures OutcomesOk(StepMachine(m, e))
  {
    if StepMachine(m, e) != m {
      NewcomerSound(m, e.token, e.id, StepMachine(m, e).workers[e.token].stage);
    }
  }

  lemma LoadSound(m: Machine, e: Event)
    requires OutcomesOk(m) && e.Load?
    ensures OutcomesOk(StepMachine(m, e))
  {
    if StepMachine(m, e) != m {
      var w := m.workers[e.token];
      GoSound(m, e.token, LoadStage(Read(m.store, w.id), w.stage, e.token, w.id, e.current, e.fault, e.now));
    }
  }

  lemma DispatchSound(m: Machine, token: Token, allowed: bool)
    requires OutcomesOk(m)
    ensures OutcomesOk(StepMachine(m, Dispatch(token, allowed)))
  {
    if token in m.workers && m.workers[token].stage.Armed? {
      GoSound(m, token, if allowed then Waiting else Failing(Failure(true, false, OtherFault, None)));
    }
  }

  lemma SettleSound(m: Machine, e: Event)
    requires OutcomesOk(m) && (e.Settle? || e.Observe?)
    ensures OutcomesOk(StepMachine(m, e))
  {
    if e.token in m.workers && StepMachine(m, e) != m {
      SettledStageSound(m, e);
      GoSound(m, e.token, StepMachine(m, e).workers[e.token].stage);
    }
  }

  lemma SettledStageSound(m: Machine, e: Event)
    requires StagesSound(m) && (e.Settle? || e.Observe?) && e.token in m.workers && StepMachine(m, e) != m
    ensures var next := StepMachine(m, e);
            && e.token in next.workers
            && var stage := next.workers[e.token].stage;
               && StageSound(stage, e.token, m.answered)
               && next == Go(m, e.token, stage).(reported := next.reported)
  {
    assert StageSound(m.workers[e.token].stage, e.token, m.answered);
  }

  /** What the failure handler writes, on what it reads. */
  lemma CatchStageSound(prior: Snapshot, token: Token, id: Id, f: Failure, now: nat, answered: map<Token, nat>)
    requires prior.job.Some? ==> JobOk(prior.job.value) && (f.called ==> prior.job.value.attempts == 1)
    requires StageSound(Failing(f), token, answered) && StageWriteOk(Failing(f), id, token)
    ensures StageSound(CatchStage(prior, token, id, f, now), token, answered)
  {
  }

  lemma CatchSound(m: Machine, base: Totals, e: Event)
    requires MachineOk(m, base) && OutcomesOk(m) && e.Catch?
    ensures OutcomesOk(StepMachine(m, e))
  {
    if e.token in m.workers && m.workers[e.token].stage.Failing? {
      var w := m.workers[e.token];
      HeldStageOk(m, base, e.token);
      var prior := Read(m.store, w.id);
      assert prior.job.Some? ==> JobOk(prior.job.value);
      CatchStageSound(prior, e.token, w.id, w.stage.failure, e.now, m.answered);
      GoSound(m, e.token, CatchStage(prior, e.token, w.id, w.stage.failure, e.now));
    }
  }

  /** A call is answered once; nothing that was known of another call changes. */
  lemma AnswerNoted(m: Machine, token: Token, used: nat)
    requires OutcomesOk(m) && token in m.workers && token !in m.answered && used <= MAX_TOKENS
    requires StageSound(m.workers[token].stage, token, m.answered[token := used])
    ensures OutcomesOk(m.(answered := m.answered[token := used]))
  {
    var next := m.(answered := m.answered[token := used]);
    forall t | t in next.workers ensures StageSound(next.workers[t].stage, t, next.answered) {
      assert StageSound(m.workers[t].stage, t, m.answered);
    }
  }

  lemma AnswerSound(m: Machine, e: Event)
    requires OutcomesOk(m) && e.Answer?
    ensures OutcomesOk(StepMachine(m, e))
  {
    if e.token in m.workers && m.workers[e.token].stage.Waiting? {
      if e.used.Some? && e.used.value <= MAX_TOKENS {
        GoSound(m, e.token, Done);
        AnswerNoted(Go(m, e.token, Done), e.token, e.used.value);
        GoSound(Go(m, e.token, Done).(answered := m.answered[e.token := e.used.value]), e.token,
                Responded(e.used.value, 0));
        assert StepMachine(m, e) == Go(Go(m, e.token, Done).(answered := m.answered[e.token := e.used.value]), e.token,
                                       Responded(e.used.value, 0));
      } else {
        GoSound(m, e.token, StepMachine(m, e).workers[e.token].stage);
      }
    }
  }

  // ----- a write that takes effect

  /** The job that was written, judged by the records and the history before. */
  lemma NextJobSound(id: Id, w: Write, token: Token, callers: map<Id, Token>, answered: map<Token, nat>, retries: nat)
    requires Applicable(w) && WriteOk(w, token) && WriteSound(w, token, answered) && w.id == id
    requires if w.prior.job.Some? then JobOk(w.prior.job.value)
                                       && JobSound(id, w.prior.job.value, callers, answered, retries) else retries == 0
    requires w.prior.job.Some? && LeasedTo(w.prior.job.value, token) && w.prior.job.value.phase == Calling ==>
               id in callers && callers[id] == token
    requires token in answered ==> answered[token] <= MAX_TOKENS
    ensures JobSound(id, NextJob(w), NextCallers(callers, w, token), answered,
                     retries + if w.change.Retry? then 1 else 0)
  {
  }

  /** Everybody else's record is judged as before. */
  lemma OtherJobSound(id: Id, job: Job, callers: map<Id, Token>, w: Write, token: Token, answered: map<Token, nat>,
                      retries: nat)
    requires JobSound(id, job, callers, answered, retries) && id != w.id
    ensures JobSound(id, job, NextCallers(callers, w, token), answered, retries)
  {
  }

  function NextRetried(retried: multiset<Id>, w: Write): multiset<Id> {
    if w.change.Retry? then retried + multiset{w.id} else retried
  }

  lemma CommitSound(store: Store, callers: map<Id, Token>, base: Totals, w: Write, token: Token,
                    answered: map<Token, nat>, retried: multiset<Id>)
    requires StoreOk(store, callers, base) && JobsSound(store, callers, answered, retried)
    requires Lands(store, callers, w, token) && WriteSound(w, token, answered)
    requires token in answered ==> answered[token] <= MAX_TOKENS
    ensures JobsSound(Commit(store, w).value, NextCallers(callers, w, token), answered, NextRetried(retried, w))
  {
    var next := Commit(store, w).value;
    assert w.id in store.jobs ==> JobOk(store.jobs[w.id]) && w.prior.job == Some(store.jobs[w.id]);
    NextJobSound(w.id, w, token, callers, answered, retried[w.id]);
    forall id | id in next.jobs
      ensures JobSound(id, next.jobs[id], NextCallers(callers, w, token), answered, NextRetried(retried, w)[id])
    {
      if id != w.id { OtherJobSound(id, store.jobs[id], callers, w, token, answered, retried[id]); }
    }
  }

  /** The write a stage holds keeps the records sound. */
  lemma HeldWriteSound(stage: Stage, id: Id, token: Token, answered: map<Token, nat>)
    requires HasWrite(stage) && StageWriteOk(stage, id, token) && StageSound(stage, token, answered)
    ensures WriteSound(stage.write, token, answered)
  {
  }

  lemma LandedSound(m: Machine, base: Totals, token: Token)
    requires MachineOk(m, base) && OutcomesOk(m) && token in m.workers && HasWrite(m.workers[token].stage)
    requires Commit(m.store, m.workers[token].stage.write).Some?
    ensures var next := Landed(m, token, m.workers[token].stage.write, true);
            JobsSound(next.store, next.callers, next.answered, next.retried)
            && next.workers == m.workers && next.answered == m.answered
  {
    var w := m.workers[token].stage.write;
    HeldStageOk(m, base, token);
    HeldWriteLands(m, base, token);
    HeldWriteSound(m.workers[token].stage, m.workers[token].id, token, m.answered);
    CommitSound(m.store, m.callers, base, w, token, m.answered, m.retried);
  }

  lemma LandStageSound(store: Store, w: Worker, token: Token, applied: bool, acked: bool, fault: Fault, now: nat,
                       answered: map<Token, nat>)
    requires HasWrite(w.stage) && StageSound(w.stage, token, answered)
    ensures StageSound(LandStage(store, w, token, applied, acked, fault, now), token, answered)
  {
  }

  lemma LandSound(m: Machine, base: Totals, e: Event)
    requires MachineOk(m, base) && OutcomesOk(m) && e.Land?
    ensures OutcomesOk(StepMachine(m, e))
  {
    if e.token in m.workers && HasWrite(m.workers[e.token].stage) {
      var w := m.workers[e.token];
      var applied := e.delivered && Commit(m.store, w.stage.write).Some?;
      var landed := Landed(m, e.token, w.stage.write, applied);
      LandIsGo(m, e.token, e.delivered, e.acked, e.fault, e.now);
      LandStageSound(landed.store, w, e.token, applied, e.acked, e.fault, e.now, m.answered);
      if applied { LandedSound(m, base, e.token); }
      GoSound(landed, e.token, LandStage(landed.store, w, e.token, applied, e.acked, e.fault, e.now));
    }
  }

  // ----- the whole queue, and the switch

  lemma RecoveredSound(store: Store, id: Id, callers: map<Id, Token>, answered: map<Token, nat>, retries: nat, now: nat)
    requires id in store.jobs && JobOk(store.jobs[id]) && JobSound(id, store.jobs[id], callers, answered, retries)
    requires id in store.control.active ==> Recoverable(store, id, now)
    ensures JobSound(id, RecoverAll(store).jobs[id], callers, answered, retries)
  {
  }

  lemma RecoverSound(m: Machine, base: Totals, now: nat)
    requires MachineOk(m, base) && OutcomesOk(m)
    ensures OutcomesOk(StepMachine(m, Recover(now)))
  {
    var next := StepMachine(m, Recover(now));
    if next != m {
      forall id | id in next.store.jobs
        ensures JobSound(id, next.store.jobs[id], m.callers, m.answered, m.retried[id])
      {
        assert JobOk(m.store.jobs[id]);
        RecoveredSound(m.store, id, m.callers, m.answered, m.retried[id], now);
      }
    }
  }

  lemma StepSound(m: Machine, base: Totals, e: Event)
    requires MachineOk(m, base) && OutcomesOk(m)
    ensures OutcomesOk(StepMachine(m, e))
  {
    match e
    case Switch(_) => {}
    case Recover(now) => RecoverSound(m, base, now);
    case Submit(_, _, _, _) => RequestSound(m, e);
    case Begin(_, _, _, _) => BeginSound(m, e);
    case Resolve(_, _, _) => RequestSound(m, e);
    case Cancel(_, _, _, _) => RequestSound(m, e);
    case Load(_, _, _, _) => LoadSound(m, e);
    case Land(_, _, _, _, _) => LandSound(m, base, e);
    case Dispatch(token, allowed) => DispatchSound(m, token, allowed);
    case Answer(_, _, _, _) => AnswerSound(m, e);
    case Settle(_, _, _, _) => SettleSound(m, e);
    case Observe(_) => SettleSound(m, e);
    case Catch(_, _) => CatchSound(m, base, e);
  }

  lemma {:induction false} RunSound(m: Machine, base: Totals, events: seq<Event>)
    requires MachineOk(m, base) && OutcomesOk(m)
    ensures OutcomesOk(RunMachine(m, events))
    decreases |events|
  {
    if events != [] {
      StepSound(m, base, events[0]);
      StepMachineKeeps(m, base, events[0]);
      RunSound(StepMachine(m, events[0]), base, events[1..]);
    }
  }

  lemma ReachableSound(totals: Totals, events: seq<Event>)
    ensures OutcomesOk(RunMachine(Initial(totals), events))
  {
    Reachable(totals, []);
    RunSound(Initial(totals), totals, events);
  }

  // ----- every answer is the answer to a call

  predicate Called(calls: seq<Call>, token: Token) {
    exists k :: 0 <= k < |calls| && calls[k].token == token
  }

  ghost predicate CalledOk(m: Machine) {
    && (forall t :: t in m.workers && m.workers[t].stage.Waiting? ==> Called(m.calls, t))
    && forall t :: t in m.answered ==> Called(m.calls, t)
  }

  lemma CalledStays(calls: seq<Call>, c: Call, token: Token)
    ensures Called(calls, token) ==> Called(calls + [c], token)
    ensures Called(calls + [c], c.token)
  {
    var more := calls + [c];
    if Called(calls, token) {
      var k :| 0 <= k < |calls| && calls[k].token == token;
      assert more[k].token == token;
    }
    assert more[|calls|].token == c.token;
  }

  lemma DispatchCalled(m: Machine, token: Token, allowed: bool)
    requires CalledOk(m)
    ensures CalledOk(StepMachine(m, Dispatch(token, allowed)))
  {
    if token in m.workers {
      forall t { CalledStays(m.calls, Call(m.workers[token].id, token), t); }
    }
  }

  /** Nobody else comes to wait for the provider. */
  predicate Quiet(m: Machine, next: Machine) {
    next.calls == m.calls && next.answered == m.answered
    && forall t :: t in next.workers && next.workers[t].stage.Waiting? ==>
         t in m.workers && m.workers[t].stage.Waiting?
  }

  lemma QuietEntry(m: Machine, e: Event)
    requires e.Submit? || e.Begin? || e.Resolve? || e.Cancel? || e.Switch? || e.Recover?
    ensures Quiet(m, StepMachine(m, e))
  {
  }

  lemma QuietLand(m: Machine, e: Event)
    requires e.Land?
    ensures Quiet(m, StepMachine(m, e))
  {
  }

  lemma QuietCheck(m: Machine, e: Event)
    requires e.Load? || e.Settle? || e.Catch? || e.Observe?
    ensures Quiet(m, StepMachine(m, e))
  {
  }

  lemma StepCalled(m: Machine, e: Event)
    requires CalledOk(m)
    ensures CalledOk(StepMachine(m, e))
  {
    if e.Dispatch? { DispatchCalled(m, e.token, e.allowed); }
    else if e.Land? { QuietLand(m, e); }
    else if e.Load? || e.Settle? || e.Catch? || e.Observe? { QuietCheck(m, e); }
    else if !e.Answer? { QuietEntry(m, e); }
  }

  lemma {:induction false} RunCalled(m: Machine, events: seq<Event>)
    requires CalledOk(m)
    ensures CalledOk(RunMachine(m, events))
    decreases |events|
  {
    if events != [] {
      StepCalled(m, events[0]);
      RunCalled(StepMachine(m, events[0]), events[1..]);
    }
  }

  // ----- the guarantees

  /** In every run a job has failed as often as it was given back for a retry, which is at most twice. */
  lemma RetriesCounted(totals: Totals, events: seq<Event>, id: Id)
    ensures var m := RunMachine(Initial(totals), events);
            m.retried[id] <= MAX_FAILURES && (id in m.store.jobs ==> m.store.jobs[id].failures == m.retried[id])
  {
    ReachableSound(totals, events);
    var m := RunMachine(Initial(totals), events);
    if id in m.store.jobs { assert JobSound(id, m.store.jobs[id], m.callers, m.answered, m.retried[id]); }
  }

  predicate GivenBack(jobs: map<Id, Job>, next: map<Id, Job>, id: Id) {
    id in jobs && id in next && jobs[id].phase == Leased && next[id].phase == Ready
  }

  lemma LandRetried(m: Machine, base: Totals, e: Event, id: Id)
    requires MachineOk(m, base) && e.Land? && e.token in m.workers && HasWrite(m.workers[e.token].stage)
    ensures var next := StepMachine(m, e);
            next.retried[id] == m.retried[id] + if GivenBack(m.store.jobs, next.store.jobs, id) then 1 else 0
  {
    var w := m.workers[e.token].stage.write;
    LandIsGo(m, e.token, e.delivered, e.acked, e.fault, e.now);
    if e.delivered && Commit(m.store, w).Some? {
      HeldWriteLands(m, base, e.token);
      GivenBackExactly(m.store, w, e.token);
    }
  }

  lemma RecoverRetried(m: Machine, base: Totals, now: nat, id: Id)
    requires MachineOk(m, base)
    ensures var next := StepMachine(m, Recover(now));
            next.retried == m.retried && !GivenBack(m.store.jobs, next.store.jobs, id)
  {
    if StepMachine(m, Recover(now)) != m { RecoverKeeps(m.store, m.callers, base, now); }
  }

  /** A retry is noted exactly when a step gives a leased job back. */
  lemma RetriedExactly(m: Machine, base: Totals, e: Event, id: Id)
    requires MachineOk(m, base)
    ensures var next := StepMachine(m, e);
            next.retried[id] == m.retried[id] + if GivenBack(m.store.jobs, next.store.jobs, id) then 1 else 0
  {
    if e.Land? && e.token in m.workers && HasWrite(m.workers[e.token].stage) {
      LandRetried(m, base, e, id);
    } else if e.Recover? {
      RecoverRetried(m, base, e.now, id);
    } else {
      StoreUntouched(m, e);
    }
  }

  lemma GivenBackExactly(store: Store, w: Write, token: Token)
    requires Applicable(w) && WriteOk(w, token) && Commit(store, w).Some?
    ensures var next := Commit(store, w).value;
            w.change.Retry? <==>
              w.id in store.jobs && store.jobs[w.id].phase == Leased && next.jobs[w.id].phase == Ready
  {
  }

  /** Only an arriving write, a recovery and the switch touch the records. */
  lemma StoreUntouched(m: Machine, e: Event)
    requires !e.Land? || e.token !in m.workers || !HasWrite(m.workers[e.token].stage)
    requires e.Recover? ==> StepMachine(m, e) == m
    ensures StepMachine(m, e).store.jobs == m.store.jobs && StepMachine(m, e).retried == m.retried
    ensures e.Switch? || StepMachine(m, e).store == m.store
  {
  }

  /** A job's usage is what the provider answered to the one call made for it, unless the job was retired on proof; it
      never exceeds what was reserved, and a job has succeeded only with it. */
  lemma UsageAsAnswered(totals: Totals, events: seq<Event>, id: Id)
    requires id in RunMachine(Initial(totals), events).store.jobs
    ensures var m := RunMachine(Initial(totals), events);
            var job := m.store.jobs[id];
            && (job.usage.Some? ==> job.usage.value <= job.reservedTokens == MAX_TOKENS)
            && (job.phase == Succeeded ==> job.usage.Some? && !job.proved)
            && (job.usage.Some? && !job.proved ==>
                  exists k :: 0 <= k < |m.calls| && m.calls[k].id == id && m.calls[k].token in m.answered
                              && m.answered[m.calls[k].token] == job.usage.value)
  {
    Reachable(totals, events);
    ReachableSound(totals, events);
    RunCalled(Initial(totals), events);
    var m := RunMachine(Initial(totals), events);
    var job := m.store.jobs[id];
    assert JobOk(job) && JobSound(id, job, m.callers, m.answered, m.retried[id]);
    if job.usage.Some? {
      if !job.proved {
        CallerCalled(m, totals, id);
      }
    }
  }

  lemma CallerCalled(m: Machine, base: Totals, id: Id)
    requires MachineOk(m, base) && CalledOk(m) && id in m.callers && m.callers[id] in m.answered
    ensures exists k :: 0 <= k < |m.calls| && m.calls[k].id == id && m.calls[k].token == m.callers[id]
  {
    var k :| 0 <= k < |m.calls| && m.calls[k].token == m.callers[id];
    assert m.calls[k] in m.calls;
  }

  /** A worker with a response tries to complete its job at most three times. */
  lemma CompletesThrice(totals: Totals, events: seq<Event>, token: Token)
    requires token in RunMachine(Initial(totals), events).workers
    ensures var stage := RunMachine(Initial(totals), events).workers[token].stage;
            stage.Responded? || stage.Completing? ==> stage.round < 3
  {
    ReachableSound(totals, events);
    var m := RunMachine(Initial(totals), events);
    assert StageSound(m.workers[token].stage, token, m.answered);
  }

  /** Why a job was given up says whether it was charged. */
  lemma ReasonTellsCharge(totals: Totals, events: seq<Event>, id: Id)
    requires id in RunMachine(Initial(totals), events).store.jobs
    ensures var job := RunMachine(Initial(totals), events).store.jobs[id];
            && (job.reason.Some? && job.reason.value in {Expired, Disabled, RetryLimit, Budget, Cancelled} ==>
                  job.attempts == 0 && job.reservedTokens == 0 && job.reservedCost == 0 && job.usage.None?)
            && (job.reason in {Some(ProviderUnconfirmed), Some(InvalidOutput)} ==>
                  job.attempts == 1 && job.reservedTokens == MAX_TOKENS && job.reservedCost == MAX_COST)
            && (job.proved ==> job.phase == Dead && job.reason == Some(Stale) && job.attempts == 1)
  {
    Reachable(totals, events);
    ReachableSound(totals, events);
    var m := RunMachine(Initial(totals), events);
    assert JobOk(m.store.jobs[id]) && JobSound(id, m.store.jobs[id], m.callers, m.answered, m.retried[id]);
  }

  // ----- revisions tell of every change

  /** The same records later on: a job's revision and that of the control record tell of every change. */
  ghost predicate RecordsFollow(store: Store, next: Store) {
    && next.control.revision >= store.control.revision
    && (next.control.revision == store.control.revision ==> next == store)
    && forall id :: id in store.jobs ==> id in next.jobs && JobFollows(store.jobs[id], next.jobs[id])
  }

  predicate JobFollows(job: Job, next: Job) {
    && next.revision >= job.revision && (next.revision == job.revision ==> next == job)
    && next.reference == job.reference && next.failures >= job.failures && next.attempts >= job.attempts
    && (job.reservedTokens > 0 ==> next.reservedTokens == job.reservedTokens)
  }

  lemma NextFollows(w: Write, token: Token)
    requires Applicable(w) && WriteOk(w, token) && w.prior.job.Some? && JobOk(w.prior.job.value)
    requires w.change.Reserve? ==> w.prior.job.value.attempts == 0
    ensures JobFollows(w.prior.job.value, NextJob(w))
  {
  }

  lemma CommitFollows(store: Store, callers: map<Id, Token>, base: Totals, w: Write, token: Token)
    requires StoreOk(store, callers, base) && Lands(store, callers, w, token) && Commit(store, w).Some?
    ensures RecordsFollow(store, Commit(store, w).value)
  {
    if w.prior.job.Some? {
      assert JobOk(store.jobs[w.id]);
      if w.change.Reserve? { ReservedOnce(store, callers, base, w, token); }
      NextFollows(w, token);
    }
  }

  lemma FollowsOn(store: Store, next: Store, last: Store)
    requires RecordsFollow(store, next) && RecordsFollow(next, last)
    ensures RecordsFollow(store, last)
  {
    forall id | id in store.jobs ensures id in last.jobs && JobFollows(store.jobs[id], last.jobs[id]) {
      assert id in next.jobs && JobFollows(next.jobs[id], last.jobs[id]);
    }
  }

  lemma LandFollows(m: Machine, base: Totals, e: Event)
    requires MachineOk(m, base) && e.Land? && e.token in m.workers && HasWrite(m.workers[e.token].stage)
    ensures RecordsFollow(m.store, StepMachine(m, e).store)
  {
    var w := m.workers[e.token].stage.write;
    LandIsGo(m, e.token, e.delivered, e.acked, e.fault, e.now);
    if e.delivered && Commit(m.store, w).Some? {
      HeldWriteLands(m, base, e.token);
      CommitFollows(m.store, m.callers, base, w, e.token);
    }
  }

  lemma RecoveryFollows(m: Machine, base: Totals, now: nat)
    requires MachineOk(m, base)
    ensures RecordsFollow(m.store, StepMachine(m, Recover(now)).store)
  {
  }

  lemma StepFollows(m: Machine, base: Totals, e: Event)
    requires MachineOk(m, base)
    ensures RecordsFollow(m.store, StepMachine(m, e).store)
  {
    if e.Land? && e.token in m.workers && HasWrite(m.workers[e.token].stage) {
      LandFollows(m, base, e);
    } else if e.Recover? {
      RecoveryFollows(m, base, e.now);
    } else {
      StoreUntouched(m, e);
    }
  }

  /** Along every run an unchanged revision means an unchanged record, revisions never fall, and a job keeps its
      reference: neither its failures nor its charge is ever taken back. */
  lemma {:induction false} RevisionsTell(m: Machine, base: Totals, events: seq<Event>)
    requires MachineOk(m, base)
    ensures RecordsFollow(m.store, RunMachine(m, events).store)
    decreases |events|
  {
    if events != [] {
      var next := StepMachine(m, events[0]);
      StepFollows(m, base, events[0]);
      StepMachineKeeps(m, base, events[0]);
      RevisionsTell(next, base, events[1..]);
      FollowsOn(m.store, next.store, RunMachine(next, events[1..]).store);
    }
  }
}
