/** Retiring a whole queue of expired jobs: the proof that every reserved attempt has completed, the prepared
    intent, and the one transaction that applies it. */
module QueueRecovery {
  import opened Prelude
  import opened JobStore
  import opened JobMachine
  import opened JobSafety
  import opened JobProtocol
  import opened JobTracking
  import opened DraftRelease

  const MAX_COMPLETIONS: nat := 256

  datatype Ledger = Ledger(runs: nat, messages: nat, tokens: nat, cost: nat)
  datatype Completion = Completion(event: nat, request: nat, at: nat)
  datatype Proof = Proof(completed: seq<Completion>, attempts: nat)

  function Qualified(events: seq<Completion>, since: nat, now: nat): seq<Completion> {
    Filter(events, (e: Completion) => since <= e.at <= now)
  }

  /** Every receipt of the period, as often as it was read, and no other. */
  lemma {:induction false} QualifiedExactly(events: seq<Completion>, since: nat, now: nat, e: Completion)
    ensures multiset(Qualified(events, since, now))[e] ==
              if since <= e.at <= now then multiset(events)[e] else 0
    decreases |events|
  {
    if events != [] {
      QualifiedExactly(events[1..], since, now, e);
      assert events == [events[0]] + events[1..];
    }
  }

  function EventIds(events: seq<Completion>): (r: seq<nat>)
    ensures |r| == |events| && forall k :: 0 <= k < |r| ==> r[k] == events[k].event
  {
    seq(|events|, k requires 0 <= k < |events| => events[k].event)
  }

  function RequestIds(events: seq<Completion>): (r: seq<nat>)
    ensures |r| == |events| && forall k :: 0 <= k < |r| ==> r[k] == events[k].request
  {
    seq(|events|, k requires 0 <= k < |events| => events[k].request)
  }

  predicate NoRepeats(ids: seq<nat>) {
    |Elements(ids)| == |ids|
  }

  /** The reserved-attempt ledger must have grown by whole attempts, and one receipt per attempt must be there. */
  function CompletionProof(total: Ledger, base: Ledger, events: seq<Completion>, since: nat, now: nat): Option<Proof> {
    var tokens, cost := total.tokens - base.tokens, total.cost - base.cost;
    if tokens <= 0 || tokens % MAX_TOKENS != 0 || cost <= 0 || cost % MAX_COST != 0
       || tokens / MAX_TOKENS != cost / MAX_COST
       || tokens / MAX_TOKENS > MAX_COMPLETIONS || total.runs != base.runs || total.messages != base.messages then None
    else
      var qualified := Qualified(events, since, now);
      if |qualified| != tokens / MAX_TOKENS || !NoRepeats(EventIds(qualified)) || !NoRepeats(RequestIds(qualified))
         then None
      else Some(Proof(qualified, tokens / MAX_TOKENS))
  }

  /** The ledger says: exactly n whole attempts were reserved since the baseline, 1 to 256 of them, nothing else
      was spent, and exactly n receipts with distinct events and requests fall into the period. */
  ghost predicate Covers(total: Ledger, base: Ledger, events: seq<Completion>, since: nat, now: nat, n: nat) {
    && 1 <= n <= MAX_COMPLETIONS
    && total.tokens == base.tokens + MAX_TOKENS * n && total.cost == base.cost + MAX_COST * n
    && total.runs == base.runs && total.messages == base.messages
    && |Qualified(events, since, now)| == n
    && Distinct(EventIds(Qualified(events, since, now))) && Distinct(RequestIds(Qualified(events, since, now)))
  }

  lemma ProvenExactly(total: Ledger, base: Ledger, events: seq<Completion>, since: nat, now: nat)
    ensures var r := CompletionProof(total, base, events, since, now);
            && (r.Some? ==> Covers(total, base, events, since, now, r.value.attempts)
                            && r.value.completed == Qualified(events, since, now))
            && (forall n: nat :: Covers(total, base, events, since, now, n) ==> r.Some? && r.value.attempts == n)
  {
    RepeatShrinks(EventIds(Qualified(events, since, now)));
    RepeatShrinks(RequestIds(Qualified(events, since, now)));
    forall n: nat | Covers(total, base, events, since, now, n)
      ensures CompletionProof(total, base, events, since, now).Some?
              && CompletionProof(total, base, events, since, now).value.attempts == n
    {
      WholeAttempts(n);
    }
  }

  lemma WholeAttempts(n: nat)
    ensures MAX_TOKENS * n % MAX_TOKENS == 0 && MAX_TOKENS * n / MAX_TOKENS == n
    ensures MAX_COST * n % MAX_COST == 0 && MAX_COST * n / MAX_COST == n
  {
  }

  // ----- the intent

  datatype Row = Row(id: Id, prior: Job, next: Job)
  datatype Intent = Intent(control: Control, nextControl: Control, rows: seq<Row>, total: Ledger, proof: Proof,
                           uncertain: nat, expired: nat, now: nat)

  /** The records as the intent was prepared from them; the totals play no part in what may be recovered. */
  function AsRead(control: Control, jobs: map<Id, Job>): Store {
    Store(control, Totals(0, 0), jobs)
  }

  /** Whose request a job is: what its reference says. */
  datatype Identity = Identity(jobId: Id, source: nat, isPublic: bool, decision: nat, subject: nat, request: nat,
                               draft: nat)

  /** How a reference is read, and how the identifiers of a draft and of a delivery are computed. */
  datatype Names = Names(identity: nat -> Identity, draft: (nat, nat, nat) -> nat, delivery: (nat, nat, nat) -> Id)

  datatype Authority = Authority(standing: bool, approved: bool, loggingDisabled: bool, retentionReviewed: bool)

  predicate Sufficient(a: Authority) { a.standing && a.approved && a.loggingDisabled && a.retentionReviewed }

  /** The job is a public one of this source, and both of its identifiers are the ones computed again. */
  predicate Owned(names: Names, source: nat, id: Id, job: Job) {
    var n := names.identity(job.reference.authority);
    && n.jobId == id && n.source == source && n.isPublic
    && n.draft == names.draft(n.decision, n.subject, n.request)
    && names.delivery(source, n.decision, n.draft) == id
  }

  /** The identity that such a reference can only have: a public one of this source, under this identifier, which is the
      one computed from the decision and from the draft computed from the request. */
  ghost predicate Ours(names: Names, source: nat, id: Id, job: Job) {
    exists decision, subject, request :: Stands(names, source, id, job, decision, subject, request)
  }

  ghost predicate Stands(names: Names, source: nat, id: Id, job: Job, decision: nat, subject: nat, request: nat) {
    var draft := names.draft(decision, subject, request);
    && names.identity(job.reference.authority) == Identity(id, source, true, decision, subject, request, draft)
    && id == names.delivery(source, decision, draft)
  }

  lemma OwnedExactly(names: Names, source: nat, id: Id, job: Job)
    ensures Owned(names, source, id, job) <==> Ours(names, source, id, job)
  {
    var n := names.identity(job.reference.authority);
    if Owned(names, source, id, job) { assert Stands(names, source, id, job, n.decision, n.subject, n.request); }
  }

  ghost predicate Retirable(control: Control, jobs: map<Id, Job>, id: Id, now: nat, names: Names, source: nat) {
    id in jobs && Ours(names, source, id, jobs[id]) && Recoverable(AsRead(control, jobs), id, now)
  }

  ghost predicate InScope(control: Control, jobs: map<Id, Job>) {
    && control.enabled && |control.active| == |jobs| && 1 <= |jobs| <= MAX_ACTIVE && Distinct(control.active)
    && |control.slots| <= MAX_SLOTS && Pairwise(control.slots, OtherJob)
  }

  ghost predicate Preparable(control: Control, jobs: map<Id, Job>, total: Ledger, base: Ledger, events: seq<Completion>,
                             since: nat, now: nat, names: Names, source: nat, queueSource: nat, authority: Authority) {
    && authority == Authority(true, true, true, true) && queueSource == source && InScope(control, jobs)
    && (exists n: nat :: Covers(total, base, events, since, now, n))
    && AllRetirable(control, jobs, now, names, source, |control.active|)
    && (forall k :: 0 <= k < |control.slots| ==> control.slots[k].jobId in control.active)
  }

  /** How many of the listed jobs have an unconfirmed call. */
  function UncertainIn(active: seq<Id>, jobs: map<Id, Job>): nat {
    if active == [] then 0
    else UncertainIn(active[..|active| - 1], jobs)
         + (if active[|active| - 1] in jobs && Uncertain(jobs[active[|active| - 1]]) then 1 else 0)
  }

  function SlotIds(slots: seq<Slot>): (r: seq<nat>)
    ensures |r| == |slots| && forall k :: 0 <= k < |r| ==> r[k] == slots[k].jobId
  {
    seq(|slots|, k requires 0 <= k < |slots| => slots[k].jobId)
  }

  predicate HasRunOutSlot(slots: seq<Slot>, id: Id, now: nat) {
    exists k :: 0 <= k < |slots| && slots[k].jobId == id && slots[k].until <= now
  }

  /** One job of the queue: what it becomes, or nothing if it is not recognised as retirable. */
  method Retire(control: Control, jobs: map<Id, Job>, id: Id, now: nat, names: Names, source: nat)
    returns (r: Option<Job>)
    ensures r.Some? <==> Retirable(control, jobs, id, now, names, source)
    ensures r.Some? ==> r.value == Recovered(jobs[id])
  {
    if id in jobs { OwnedExactly(names, source, id, jobs[id]); }
    if id !in jobs || !Owned(names, source, id, jobs[id]) || jobs[id].reference.expiresAt > now { return None; }
    var job := jobs[id];
    var changed := job.(revision := job.revision + 1);
    if job.phase == Dead && job.reason == Some(ProviderUnconfirmed) {
      if job.attempts != 1 || job.usage.Some? || job.lease.Some? || !HasRunOutSlot(control.slots, id, now) {
        return None;
      }
      return Some(changed.(reason := Some(Stale), proved := true));
    }
    if job.phase in {Ready, Leased} && job.attempts == 0 && job.reservedTokens == 0 && job.reservedCost == 0
       && job.usage.None? {
      if job.lease.Some? && job.lease.value.until > now { return None; }
      return Some(changed.(phase := Dead, reason := Some(Expired), lease := None));
    }
    return None;
  }

  ghost predicate AllRetirable(control: Control, jobs: map<Id, Job>, now: nat, names: Names, source: nat, n: nat)
    requires n <= |control.active|
  {
    forall k :: 0 <= k < n ==> Retirable(control, jobs, control.active[k], now, names, source)
  }

  ghost predicate RowsOf(control: Control, jobs: map<Id, Job>, rows: seq<Row>) {
    |rows| <= |control.active|
    && forall k :: 0 <= k < |rows| ==>
         control.active[k] in jobs
         && rows[k] == Row(control.active[k], jobs[control.active[k]], Recovered(jobs[control.active[k]]))
  }

  /** The intent fits some records of the kind it can be prepared from. */
  ghost predicate Prepared(i: Intent, names: Names, source: nat) {
    && i.nextControl == i.control.(revision := i.control.revision + 1, enabled := false, active := [], slots := [])
    && exists jobs :: PreparedOn(i, jobs, names, source)
  }

  ghost predicate PreparedOn(i: Intent, jobs: map<Id, Job>, names: Names, source: nat) {
    && InScope(i.control, jobs) && AllRetirable(i.control, jobs, i.now, names, source, |i.control.active|)
    && |i.rows| == |i.control.active| && RowsOf(i.control, jobs, i.rows)
  }

  lemma UncertainStep(active: seq<Id>, jobs: map<Id, Job>, k: nat)
    requires k < |active| && active[k] in jobs
    ensures UncertainIn(active[..k + 1], jobs) == UncertainIn(active[..k], jobs) + if Uncertain(jobs[active[k]])
            then 1 else 0
  {
    assert active[..k + 1][..k] == active[..k];
  }

  /** The first jobs of the queue, retired and counted. */
  ghost predicate RetiredUpTo(control: Control, jobs: map<Id, Job>, rows: seq<Row>, uncertain: nat, expired: nat) {
    && RowsOf(control, jobs, rows) && uncertain + expired == |rows|
    && uncertain == UncertainIn(control.active[..|rows|], jobs)
  }

  lemma RetiredStep(control: Control, jobs: map<Id, Job>, rows: seq<Row>, uncertain: nat, expired: nat)
    requires RetiredUpTo(control, jobs, rows, uncertain, expired)
    requires |rows| < |control.active| && control.active[|rows|] in jobs
    ensures var id := control.active[|rows|];
            var one := if Uncertain(jobs[id]) then 1 else 0;
            RetiredUpTo(control, jobs, rows + [Row(id, jobs[id], Recovered(jobs[id]))], uncertain + one,
                        expired + 1 - one)
  {
    UncertainStep(control.active, jobs, |rows|);
  }

  lemma RetirableStep(control: Control, jobs: map<Id, Job>, now: nat, names: Names, source: nat, n: nat)
    requires n < |control.active|
    ensures AllRetirable(control, jobs, now, names, source, n + 1) <==>
              AllRetirable(control, jobs, now, names, source, n)
              && Retirable(control, jobs, control.active[n], now, names, source)
  {
  }

  lemma NoneMissing(control: Control, jobs: map<Id, Job>, now: nat, names: Names, source: nat, n: nat)
    requires n <= |control.active|
    ensures AllRetirable(control, jobs, now, names, source, |control.active|) ==>
              AllRetirable(control, jobs, now, names, source, n)
  {
  }

  /** Goes through the queue in order; any job it does not recognise as retirable stops it. */
  method RetireAll(control: Control, jobs: map<Id, Job>, now: nat, names: Names, source: nat)
    returns (rows: seq<Row>, uncertain: nat, expired: nat, ok: bool)
    ensures ok <==> AllRetirable(control, jobs, now, names, source, |control.active|)
    ensures ok ==> RetiredUpTo(control, jobs, rows, uncertain, expired) && |rows| == |control.active|
  {
    rows, uncertain, expired := [], 0, 0;
    for k := 0 to |control.active|
      invariant |rows| == k && RetiredUpTo(control, jobs, rows, uncertain, expired)
      invariant AllRetirable(control, jobs, now, names, source, k)
    {
      var id := control.active[k];
      RetirableStep(control, jobs, now, names, source, k);
      var next := Retire(control, jobs, id, now, names, source);
      NoneMissing(control, jobs, now, names, source, k + 1);
      if next.None? {
        return rows, uncertain, expired, false;
      }
      RetiredStep(control, jobs, rows, uncertain, expired);
      if Uncertain(jobs[id]) { uncertain := uncertain + 1; } else { expired := expired + 1; }
      rows := rows + [Row(id, jobs[id], next.value)];
    }
    ok := true;
  }

  method CheckScope(control: Control, jobs: map<Id, Job>) returns (ok: bool)
    ensures ok <==> InScope(control, jobs)
  {
    RepeatShrinks(control.active);
    SlotsDistinct(control.slots);
    return control.enabled && |control.active| == |jobs| && 1 <= |jobs| <= MAX_ACTIVE && NoRepeats(control.active)
           && |control.slots| <= MAX_SLOTS && NoRepeats(SlotIds(control.slots));
  }

  /** Checks everything and builds the replacement rows. */
  method PrepareIntent(control: Control, jobs: map<Id, Job>, total: Ledger, base: Ledger, events: seq<Completion>,
                       since: nat, now: nat, names: Names, source: nat, queueSource: nat, authority: Authority)
    returns (r: Option<Intent>)
    ensures r.Some? <==> Preparable(control, jobs, total, base, events, since, now, names, source, queueSource,
                                    authority)
    ensures r.Some? ==> Prepared(r.value, names, source)
    ensures r.Some? ==>
              var i := r.value;
              && i.control == control && i.total == total && i.now == now
              && i.nextControl == control.(revision := control.revision + 1, enabled := false, active := [],
                                           slots := [])
              && RowsOf(control, jobs, i.rows) && |i.rows| == |control.active|
              && Covers(total, base, events, since, now, i.proof.attempts)
              && i.proof.completed == Qualified(events, since, now)
              && i.uncertain == UncertainIn(control.active, jobs) && i.uncertain + i.expired == |control.active|
  {
    ProvenExactly(total, base, events, since, now);
    if !Sufficient(authority) || queueSource != source { return None; }
    var scope := CheckScope(control, jobs);
    if !scope { return None; }
    var proof := CompletionProof(total, base, events, since, now);
    if proof.None? { return None; }
    var rows, uncertain, expired, ok := RetireAll(control, jobs, now, names, source);
    if !ok { return None; }
    if exists k :: 0 <= k < |control.slots| && control.slots[k].jobId !in control.active { return None; }
    var intent := Intent(control,
                         control.(revision := control.revision + 1, enabled := false, active := [], slots := []), rows,
                         total, proof.value, uncertain, expired, now);
    assert control.active[..|control.active|] == control.active;
    assert PreparedOn(intent, jobs, names, source);
    return Some(intent);
  }

  lemma SlotsDistinct(slots: seq<Slot>)
    ensures NoRepeats(SlotIds(slots)) <==> Pairwise(slots, OtherJob)
  {
    RepeatShrinks(SlotIds(slots));
    if Pairwise(slots, OtherJob) {
      forall i, j | 0 <= i < j < |slots| ensures SlotIds(slots)[i] != SlotIds(slots)[j] {
        assert OtherJob(slots[i], slots[j]);
      }
    }
  }

  /** In every reachable state an enabled, non-empty queue is in scope, and so is each of its slots; whether an
      intent is prepared then depends only on the ledger and on the jobs themselves. */
  lemma ReachableInScope(totals: Totals, events: seq<Event>, rows: map<Id, Job>)
    requires var m := RunMachine(Initial(totals), events);
             && m.store.control.enabled && m.store.control.active != []
             && (forall id :: id in rows <==> id in m.store.control.active)
             && forall id :: id in rows ==> id in m.store.jobs && rows[id] == m.store.jobs[id]
    ensures var control := RunMachine(Initial(totals), events).store.control;
            InScope(control, rows) && forall k :: 0 <= k < |control.slots| ==> control.slots[k].jobId in control.active
  {
    QueueMatchesJobs(totals, events);
    var control := RunMachine(Initial(totals), events).store.control;
    RepeatShrinks(control.active);
    assert rows.Keys == Elements(control.active);
  }

  /** A queued job of a machine in order can be retired exactly when it has expired and is not calling. */
  lemma QueuedRecoverable(m: Machine, base: Totals, id: Id, now: nat)
    requires MachineOk(m, base) && id in m.store.control.active
    ensures id in m.store.jobs
    ensures Recoverable(m.store, id, now) <==>
              m.store.jobs[id].reference.expiresAt <= now && m.store.jobs[id].phase != Calling
  {
    var job, slots := m.store.jobs[id], m.store.control.slots;
    assert JobOk(job) && !Finished(job);
    if Uncertain(job) && job.reference.expiresAt <= now {
      assert HasSlot(slots, id);
      var k :| 0 <= k < |slots| && slots[k].jobId == id;
      assert slots[k] in slots;
    }
  }

  /** In every reachable state: of the jobs in the queue, the recovery recognises exactly those that have expired and
      are not calling; so one unexpired or calling job is what holds up the whole queue, and nothing else of the
      records is. */
  lemma RecoverableExactly(totals: Totals, events: seq<Event>, id: Id, now: nat)
    requires id in RunMachine(Initial(totals), events).store.control.active
    ensures var store := RunMachine(Initial(totals), events).store;
            && id in store.jobs
            && (Recoverable(store, id, now) <==>
                  store.jobs[id].reference.expiresAt <= now && store.jobs[id].phase != Calling)
  {
    Reachable(totals, events);
    QueuedRecoverable(RunMachine(Initial(totals), events), totals, id, now);
  }

  /** Everything the intent asks for beyond the records: who may prepare it, and the ledger. */
  ghost predicate Warranted(total: Ledger, base: Ledger, events: seq<Completion>, since: nat, now: nat, source: nat,
                            queueSource: nat, authority: Authority) {
    authority == Authority(true, true, true, true) && queueSource == source
    && exists n: nat :: Covers(total, base, events, since, now, n)
  }

  /** From an enabled, non-empty queue of a reachable state an intent is prepared if and only if it is warranted and
      every queued job is owned, has expired and is not calling. */
  lemma ReachablePreparable(totals: Totals, run: seq<Event>, jobs: map<Id, Job>, total: Ledger, base: Ledger,
                            events: seq<Completion>, since: nat, now: nat, names: Names, source: nat,
                            queueSource: nat, authority: Authority)
    requires var m := RunMachine(Initial(totals), run);
             && m.store.control.enabled && m.store.control.active != []
             && (forall id :: id in jobs <==> id in m.store.control.active)
             && forall id :: id in jobs ==> id in m.store.jobs && jobs[id] == m.store.jobs[id]
    ensures Preparable(RunMachine(Initial(totals), run).store.control, jobs, total, base, events, since, now, names,
                       source, queueSource, authority) <==>
              && Warranted(total, base, events, since, now, source, queueSource, authority)
              && forall id :: id in jobs ==>
                   && Ours(names, source, id, jobs[id])
                   && jobs[id].reference.expiresAt <= now && jobs[id].phase != Calling
  {
    var m := RunMachine(Initial(totals), run);
    ReachableInScope(totals, run, jobs);
    forall id | id in jobs
      ensures Retirable(m.store.control, jobs, id, now, names, source) <==>
                Ours(names, source, id, jobs[id]) && jobs[id].reference.expiresAt <= now && jobs[id].phase != Calling
    {
      RecoverableExactly(totals, run, id, now);
    }
    RetirableEach(m.store.control, jobs, now, names, source);
  }

  lemma RetirableEach(control: Control, jobs: map<Id, Job>, now: nat, names: Names, source: nat)
    requires forall id :: id in jobs <==> id in control.active
    ensures AllRetirable(control, jobs, now, names, source, |control.active|) <==>
              forall id :: id in jobs ==> Retirable(control, jobs, id, now, names, source)
  {
    if AllRetirable(control, jobs, now, names, source, |control.active|) {
      forall id | id in jobs ensures Retirable(control, jobs, id, now, names, source) {
        var k :| 0 <= k < |control.active| && control.active[k] == id;
      }
    }
  }

  /** One delivery of an expired job that is still calling, whoever makes it, is enough to stop holding up the queue. */
  lemma DeliveryFreesRecovery(totals: Totals, run: seq<Event>, token: Token, id: Id, span: nat, now: nat, acked: bool)
    requires var m := RunMachine(Initial(totals), run);
             && token !in m.workers && id in m.store.control.active && id in m.store.jobs
             && m.store.jobs[id].phase == Calling && m.store.jobs[id].reference.expiresAt <= now
    ensures var m := RunMachine(Initial(totals), run);
            var next := RunMachine(m, [Begin(token, id, span, now), Land(token, true, acked, OtherFault, now)]);
            id in next.store.control.active && Recoverable(next.store, id, now)
  {
    var m := RunMachine(Initial(totals), run);
    var events := [Begin(token, id, span, now), Land(token, true, acked, OtherFault, now)];
    Reachable(totals, run);
    DeliveryQuarantines(m, totals, token, id, span, now, acked);
    RunTwo(m, events[0], events[1]);
    RunMachineKeeps(m, totals, events);
    QueuedRecoverable(RunMachine(m, events), totals, id, now);
  }

  lemma DeliveryQuarantines(m: Machine, base: Totals, token: Token, id: Id, span: nat, now: nat, acked: bool)
    requires MachineOk(m, base) && token !in m.workers && id in m.store.control.active && id in m.store.jobs
    requires m.store.jobs[id].phase == Calling && m.store.jobs[id].reference.expiresAt <= now
    ensures var next := StepMachine(StepMachine(m, Begin(token, id, span, now)),
                                    Land(token, true, acked, OtherFault, now));
            && id in next.store.control.active && id in next.store.jobs
            && Uncertain(next.store.jobs[id]) && next.store.jobs[id].reference == m.store.jobs[id].reference
  {
    var w := Write(id, Read(m.store, id), End(ProviderUnconfirmed, None));
    assert JobOk(m.store.jobs[id]);
    var begun := StepMachine(m, Begin(token, id, span, now));
    assert begun == Enter(m, token, id, Closing(w));
    assert Commit(begun.store, w).Some?;
  }

  /** The calls that the receipts of a period stand for. */
  function Answered(completed: seq<Completion>, callOf: nat -> Token): set<Token> {
    set k | 0 <= k < |completed| :: callOf(completed[k].request)
  }

  lemma {:induction false} AnsweredSize(completed: seq<Completion>, callOf: nat -> Token)
    requires Distinct(RequestIds(completed))
    requires forall j, k :: 0 <= j < k < |completed| && completed[j].request != completed[k].request ==>
               callOf(completed[j].request) != callOf(completed[k].request)
    ensures |Answered(completed, callOf)| == |completed|
  {
    if completed != [] {
      var n := |completed| - 1;
      var rest := completed[..n];
      forall j, k | 0 <= j < k < n ensures RequestIds(rest)[j] != RequestIds(rest)[k] {
        assert RequestIds(completed)[j] != RequestIds(completed)[k];
      }
      AnsweredSize(rest, callOf);
      var last := callOf(completed[n].request);
      forall j | 0 <= j < n ensures callOf(rest[j].request) != last {
        assert RequestIds(completed)[j] != RequestIds(completed)[n];
      }
      assert Answered(completed, callOf) == Answered(rest, callOf) + {last};
      assert last !in Answered(rest, callOf);
    }
  }

  /** An intent prepared from a reachable state, since the totals the run began with, on receipts of calls that were
      really made, one call to a request: every call ever made is answered by one of them, and so was the call of
      every charged job, in particular of each one the intent retires. */
  lemma PreparedRetiresAnswered(totals: Totals, run: seq<Event>, jobs: map<Id, Job>, total: Ledger, base: Ledger,
                                events: seq<Completion>, since: nat, now: nat, names: Names, source: nat,
                                queueSource: nat, authority: Authority, callOf: nat -> Token)
    requires var m := RunMachine(Initial(totals), run);
             && Preparable(m.store.control, jobs, total, base, events, since, now, names, source, queueSource,
                           authority)
             && Costs(m.store.totals, total) && Costs(totals, base)
             && (forall id :: id in jobs ==> id in m.store.jobs && jobs[id] == m.store.jobs[id])
             && (forall k :: 0 <= k < |Qualified(events, since, now)| ==>
                   exists c :: c in m.calls && c.token == callOf(Qualified(events, since, now)[k].request))
    requires forall a, b :: a != b ==> callOf(a) != callOf(b)
    ensures var m := RunMachine(Initial(totals), run);
            var answered := Answered(Qualified(events, since, now), callOf);
            && (forall c :: c in m.calls ==> c.token in answered)
            && (forall id :: id in jobs && jobs[id].attempts == 1 ==> id in m.callers && m.callers[id] in answered)
  {
    var m := RunMachine(Initial(totals), run);
    var completed := Qualified(events, since, now);
    var n: nat :| Covers(total, base, events, since, now, n);
    AnsweredSize(completed, callOf);
    CompleteLedger(totals, run, Answered(completed, callOf), n);
    Reachable(totals, run);
  }

  // ----- applying it

  /** The records still say what the intent was prepared from. */
  predicate Unchanged(store: Store, i: Intent) {
    store.control == i.control
    && forall k :: 0 <= k < |i.rows| ==> i.rows[k].id in store.jobs && store.jobs[i.rows[k].id] == i.rows[k].prior
  }

  /** On unchanged records the transaction is a recovery of the whole queue, and writes exactly the intent's rows. */
  lemma TransactionRecovers(m: Machine, i: Intent, names: Names, source: nat)
    requires Prepared(i, names, source) && Unchanged(m.store, i)
    ensures StepMachine(m, Recover(i.now)).store == RecoverAll(m.store)
    ensures RecoverAll(m.store).control == i.nextControl
    ensures forall k :: 0 <= k < |i.rows| ==> RecoverAll(m.store).jobs[i.rows[k].id] == i.rows[k].next
  {
    var jobs :| PreparedOn(i, jobs, names, source);
    forall k | 0 <= k < |m.store.control.active|
      ensures Recoverable(m.store, m.store.control.active[k], i.now)
              && m.store.jobs[m.store.control.active[k]] == jobs[m.store.control.active[k]]
    {
      assert i.rows[k].id in m.store.jobs && m.store.jobs[i.rows[k].id] == i.rows[k].prior;
      RecoverableSame(i.control, jobs, m.store, i.control.active[k], i.now, names, source);
    }
    assert forall k :: 0 <= k < |i.rows| ==> i.rows[k].id in i.control.active;
  }

  /** What may be recovered depends on the job and the control record only. */
  lemma RecoverableSame(control: Control, jobs: map<Id, Job>, store: Store, id: Id, now: nat, names: Names, source: nat)
    requires Retirable(control, jobs, id, now, names, source)
    requires store.control == control && id in store.jobs && store.jobs[id] == jobs[id]
    ensures Recoverable(store, id, now)
  {
  }

  /** Every change to the records counts one on the control revision. */
  lemma StepBumps(m: Machine, e: Event)
    ensures StepMachine(m, e).store == m.store
            || StepMachine(m, e).store.control.revision == m.store.control.revision + 1
  {
  }

  lemma {:induction false} SameRevisionSameStore(m: Machine, events: seq<Event>)
    ensures RunMachine(m, events).store.control.revision >= m.store.control.revision
    ensures RunMachine(m, events).store.control.revision == m.store.control.revision ==>
              RunMachine(m, events).store == m.store
    decreases |events|
  {
    if events != [] {
      StepBumps(m, events[0]);
      SameRevisionSameStore(StepMachine(m, events[0]), events[1..]);
    }
  }

  lemma OnlyRecoveryLooksLikeIt(m: Machine, e: Event)
    requires m.store.control.enabled && |m.store.control.active| >= 1
    requires StepMachine(m, e).store.control == RecoverAll(m.store).control
    ensures StepMachine(m, e).store == RecoverAll(m.store)
  {
  }

  /** Whoever saw the control record before and sees it now as the intent wanted it knows that the whole recovery
      took effect, once, with no other change in between. */
  lemma {:induction false} ReadbackProvesRecovery(m: Machine, events: seq<Event>)
    requires m.store.control.enabled && |m.store.control.active| >= 1
    requires RunMachine(m, events).store.control == RecoverAll(m.store).control
    ensures RunMachine(m, events).store == RecoverAll(m.store)
    decreases |events|
  {
    if events != [] {
      var next := StepMachine(m, events[0]);
      StepBumps(m, events[0]);
      if next.store == m.store {
        ReadbackProvesRecovery(next, events[1..]);
      } else {
        SameRevisionSameStore(next, events[1..]);
        OnlyRecoveryLooksLikeIt(m, events[0]);
      }
    }
  }

  /** The running totals are what the intent was prepared from. */
  predicate Costs(totals: Totals, total: Ledger) {
    totals.tokens == total.tokens && totals.cost == total.cost
  }

  /** At some moment of the run the records went from what the intent was prepared from to what it wanted, in one
      step. The totals were seen as prepared before that was sent, and again at the end, and no reservation took effect
      in between. */
  ghost predicate TookEffect(start: Machine, end: Machine, i: Intent) {
    exists before: Machine, priced: Machine, after: Machine :: Effect(start, before, priced, after, end, i)
  }

  ghost predicate Effect(start: Machine, before: Machine, priced: Machine, after: Machine, end: Machine, i: Intent) {
    && Later(start, before) && Later(before, priced) && Later(priced, after) && Later(after, end)
    && before.store.control == i.control && after.store == RecoverAll(before.store)
    && after.store.control == i.nextControl
    && (forall k :: 0 <= k < |i.rows| ==> SeenAfter(before, end, i, k))
    && Costs(priced.store.totals, i.total) && Costs(end.store.totals, i.total)
    && end.callers == priced.callers && end.store.totals == priced.store.totals
  }

  /** Reservations only add up, and a step that leaves the token total alone reserves nothing. */
  lemma StepReserves(m: Machine, e: Event)
    ensures StepMachine(m, e).store.totals.tokens >= m.store.totals.tokens
    ensures StepMachine(m, e).store.totals.tokens == m.store.totals.tokens ==>
              StepMachine(m, e).store.totals == m.store.totals && StepMachine(m, e).callers == m.callers
  {
  }

  /** Two equal readings of the token total mean that nothing was reserved between them. */
  lemma {:induction false} SameTotalsNoReservation(m: Machine, events: seq<Event>)
    ensures RunMachine(m, events).store.totals.tokens >= m.store.totals.tokens
    ensures RunMachine(m, events).store.totals.tokens == m.store.totals.tokens ==>
              RunMachine(m, events).store.totals == m.store.totals && RunMachine(m, events).callers == m.callers
    decreases |events|
  {
    if events != [] {
      StepReserves(m, events[0]);
      SameTotalsNoReservation(StepMachine(m, events[0]), events[1..]);
    }
  }

  lemma SameTotalsLater(m: Machine, end: Machine)
    requires Later(m, end) && end.store.totals.tokens == m.store.totals.tokens
    ensures end.store.totals == m.store.totals && end.callers == m.callers
  {
    var events :| end == RunMachine(m, events);
    SameTotalsNoReservation(m, events);
  }

  /** After the records were found as prepared, the k-th row was found as wanted. */
  ghost predicate SeenAfter(start: Machine, end: Machine, i: Intent, k: nat)
    requires k < |i.rows|
  {
    Seen(start, end, i.rows[k].id, i.rows[k].next)
  }

  lemma SeenAfterFrom(start: Machine, mid: Machine, end: Machine, i: Intent, k: nat)
    requires k < |i.rows| && Later(start, mid) && Seen(mid, end, i.rows[k].id, i.rows[k].next)
    ensures SeenAfter(start, end, i, k)
  {
    var m :| Later(mid, m) && Later(m, end) && i.rows[k].id in m.store.jobs
        && m.store.jobs[i.rows[k].id] == i.rows[k].next;
    LaterAgain(start, mid, m);
  }

  datatype Applied = Pass(uncertain: nat, expired: nat) | Blocked

  /** Some moment of the run had this job under this identifier. */
  ghost predicate Seen(start: Machine, end: Machine, id: Id, job: Job) {
    exists m :: Later(start, m) && Later(m, end) && id in m.store.jobs && m.store.jobs[id] == job
  }

  lemma SeenLater(start: Machine, mid: Machine, end: Machine, id: Id, job: Job)
    requires Seen(start, mid, id, job) && Later(mid, end)
    ensures Seen(start, end, id, job)
  {
    var m :| Later(start, m) && Later(m, mid) && id in m.store.jobs && m.store.jobs[id] == job;
    LaterAgain(m, mid, end);
  }

  lemma SeenNow(start: Machine, m: Machine, id: Id)
    requires Later(start, m) && id in m.store.jobs
    ensures Seen(start, m, id, m.store.jobs[id])
  {
    assert m == RunMachine(m, []);
  }

  /** The records hold the first n of these jobs. */
  ghost predicate RowsAre(store: Store, ids: seq<Id>, jobs: seq<Job>, n: nat)
    requires n <= |ids| == |jobs|
  {
    forall k :: 0 <= k < n ==> ids[k] in store.jobs && store.jobs[ids[k]] == jobs[k]
  }

  /** The first n of these jobs were seen, each at some moment. */
  ghost predicate AllSeen(start: Machine, end: Machine, ids: seq<Id>, jobs: seq<Job>, n: nat)
    requires n <= |ids| == |jobs|
  {
    forall k :: 0 <= k < n ==> Seen(start, end, ids[k], jobs[k])
  }

  lemma StillSeen(start: Machine, mid: Machine, end: Machine, ids: seq<Id>, jobs: seq<Job>, n: nat)
    requires n <= |ids| == |jobs| && Later(mid, end) && AllSeen(start, mid, ids, jobs, n)
    ensures AllSeen(start, end, ids, jobs, n)
  {
    forall k | 0 <= k < n ensures Seen(start, end, ids[k], jobs[k]) { SeenLater(start, mid, end, ids[k], jobs[k]); }
  }

  /** Reads one job, after anybody has acted. */
  method ReadRow(d: Deployment, id: Id, job: Job) returns (same: bool)
    requires d.Valid()
    modifies d
    ensures d.Valid() && Later(old(d.machine), d.machine)
    ensures same <==> id in d.machine.store.jobs && d.machine.store.jobs[id] == job
    ensures d.quiet ==> d.machine == old(d.machine)
  {
    d.Others(None);
    return id in d.machine.store.jobs && d.machine.store.jobs[id] == job;
  }

  /** Reads one more job. */
  method ReadNext(d: Deployment, ids: seq<Id>, jobs: seq<Job>, k: nat, ghost start: Machine) returns (same: bool)
    requires d.Valid() && k < |ids| == |jobs| && Later(start, d.machine) && AllSeen(start, d.machine, ids, jobs, k)
    modifies d
    ensures d.Valid() && Later(start, d.machine) && Later(old(d.machine), d.machine)
    ensures same ==> AllSeen(start, d.machine, ids, jobs, k + 1)
    ensures d.quiet ==>
              d.machine == old(d.machine)
              && (same <==> ids[k] in d.machine.store.jobs && d.machine.store.jobs[ids[k]] == jobs[k])
  {
    ghost var before := d.machine;
    same := ReadRow(d, ids[k], jobs[k]);
    LaterAgain(start, before, d.machine);
    if same {
      StillSeen(start, before, d.machine, ids, jobs, k);
      SeenNow(start, d.machine, ids[k]);
    }
  }

  /** Reads the jobs one by one, with anybody acting in between, until one is not as expected. */
  method ReadRows(d: Deployment, ids: seq<Id>, jobs: seq<Job>) returns (same: bool)
    requires d.Valid() && |ids| == |jobs|
    modifies d
    ensures d.Valid() && Later(old(d.machine), d.machine)
    ensures same ==> AllSeen(old(d.machine), d.machine, ids, jobs, |ids|)
    ensures d.quiet ==> d.machine == old(d.machine) && (same <==> RowsAre(d.machine.store, ids, jobs, |ids|))
  {
    ghost var start := d.machine;
    assert d.machine == RunMachine(d.machine, []);
    for k := 0 to |ids|
      invariant d.Valid() && Later(start, d.machine)
      invariant AllSeen(start, d.machine, ids, jobs, k)
      invariant d.quiet ==> d.machine == start && RowsAre(d.machine.store, ids, jobs, k)
    {
      same := ReadNext(d, ids, jobs, k, start);
      if !same { return; }
    }
    return true;
  }

  function RowIds(rows: seq<Row>): (r: seq<Id>)
    ensures |r| == |rows| && forall k :: 0 <= k < |r| ==> r[k] == rows[k].id
  {
    seq(|rows|, k requires 0 <= k < |rows| => rows[k].id)
  }

  function Priors(rows: seq<Row>): (r: seq<Job>)
    ensures |r| == |rows| && forall k :: 0 <= k < |r| ==> r[k] == rows[k].prior
  {
    seq(|rows|, k requires 0 <= k < |rows| => rows[k].prior)
  }

  function Nexts(rows: seq<Row>): (r: seq<Job>)
    ensures |r| == |rows| && forall k :: 0 <= k < |r| ==> r[k] == rows[k].next
  {
    seq(|rows|, k requires 0 <= k < |rows| => rows[k].next)
  }

  /** The two counters of the totals that no participant here touches. */
  datatype Spending = Spending(runs: nat, messages: nat)

  /** The running totals as they are read. */
  method ReadTotals(d: Deployment, spent: Spending) returns (seen: Ledger)
    requires d.Valid()
    ensures seen == Ledger(spent.runs, spent.messages, d.machine.store.totals.tokens, d.machine.store.totals.cost)
  {
    return Ledger(spent.runs, spent.messages, d.machine.store.totals.tokens, d.machine.store.totals.cost);
  }

  /** Everything that is looked at before the transaction: control, jobs, totals and authority. */
  method CheckBefore(d: Deployment, i: Intent, spent: Spending, authority: bool)
    returns (ok: bool, ghost before: Machine)
    requires d.Valid()
    modifies d
    ensures d.Valid() && Later(old(d.machine), before) && Later(before, d.machine)
    ensures ok ==> before.store.control == i.control && Costs(d.machine.store.totals, i.total)
    ensures ok ==> authority && spent == Spending(i.total.runs, i.total.messages)
    ensures d.quiet ==>
              d.machine == old(d.machine)
              && (ok <==> Unchanged(d.machine.store, i) && Costs(d.machine.store.totals, i.total)
                          && spent == Spending(i.total.runs, i.total.messages) && authority)
  {
    d.Others(None);
    before := d.machine;
    assert d.machine == RunMachine(d.machine, []);
    if d.machine.store.control != i.control { return false, before; }
    var same := ReadRows(d, RowIds(i.rows), Priors(i.rows));
    ghost var read := d.machine;
    d.Others(None);
    LaterAgain(before, read, d.machine);
    var seen := ReadTotals(d, spent);
    assert RowsAre(read.store, RowIds(i.rows), Priors(i.rows), |i.rows|) <==>
           Unchanged(read.store, i.(control := read.store.control));
    return same && seen == i.total && authority, before;
  }

  /** The one transaction, which may be refused, lost, or applied unacknowledged. */
  method Transact(d: Deployment, i: Intent, ghost names: Names, ghost source: nat)
    requires d.Valid() && Prepared(i, names, source)
    modifies d
    ensures d.Valid() && Later(old(d.machine), d.machine)
    ensures d.quiet && Unchanged(old(d.machine).store, i) ==> d.machine == StepMachine(old(d.machine), Recover(i.now))
  {
    d.Others(None);
    ghost var sent := d.machine;
    var delivered: bool := *;
    if d.quiet { delivered := true; }
    if delivered && Unchanged(d.machine.store, i) {
      TransactionRecovers(d.machine, i, names, source);
      d.Step(Recover(i.now));
      LaterAgain(old(d.machine), sent, d.machine);
    }
  }

  /** Everything that is looked at afterwards: control, jobs and totals. */
  method CheckAfter(d: Deployment, i: Intent, spent: Spending) returns (ok: bool, ghost after: Machine)
    requires d.Valid()
    modifies d
    ensures d.Valid() && Later(old(d.machine), after) && Later(after, d.machine)
    ensures ok ==> after.store.control == i.nextControl && Costs(d.machine.store.totals, i.total)
    ensures ok ==> forall k :: 0 <= k < |i.rows| ==> SeenAfter(after, d.machine, i, k)
    ensures d.quiet ==>
              d.machine == old(d.machine)
              && (ok <==> d.machine.store.control == i.nextControl && Costs(d.machine.store.totals, i.total)
                          && spent == Spending(i.total.runs, i.total.messages)
                          && RowsAre(d.machine.store, RowIds(i.rows), Nexts(i.rows), |i.rows|))
  {
    d.Others(None);
    after := d.machine;
    assert d.machine == RunMachine(d.machine, []);
    if d.machine.store.control != i.nextControl { return false, after; }
    var ids, jobs := RowIds(i.rows), Nexts(i.rows);
    var same := ReadRows(d, ids, jobs);
    ghost var read := d.machine;
    d.Others(None);
    LaterAgain(after, read, d.machine);
    forall k | same && 0 <= k < |i.rows| ensures SeenAfter(after, d.machine, i, k) {
      assert Seen(after, read, ids[k], jobs[k]);
      SeenLater(after, read, d.machine, ids[k], jobs[k]);
    }
    var seen := ReadTotals(d, spent);
    return same && seen == i.total, after;
  }

  /** Reads every row and the totals, sends the one transaction, and reads them all again; anybody may act between
      any two of these. */
  method ApplyIntent(d: Deployment, i: Intent, backedUp: bool, spent: Spending, authority: bool, ghost names: Names,
                     ghost source: nat)
    returns (r: Applied, transactions: nat)
    requires d.Valid() && Prepared(i, names, source)
    modifies d
    ensures d.Valid() && Later(old(d.machine), d.machine)
    ensures transactions <= 1 && (r.Pass? ==> transactions == 1)
    ensures !backedUp ==> transactions == 0 && d.machine == old(d.machine)
    ensures r.Pass? ==> TookEffect(old(d.machine), d.machine, i) && r == Pass(i.uncertain, i.expired)
    ensures d.quiet ==>
              (r.Pass? <==> backedUp && authority && Unchanged(old(d.machine).store, i)
                            && Costs(old(d.machine).store.totals, i.total)
                            && spent == Spending(i.total.runs, i.total.messages))
  {
    assert d.machine == RunMachine(d.machine, []);
    if !backedUp { return Blocked, 0; }
    ghost var start := d.machine;
    var ready, before := CheckBefore(d, i, spent, authority);
    LaterAgain(start, before, d.machine);
    if !ready { return Blocked, 0; }
    ghost var priced := d.machine;
    Transact(d, i, names, source);
    ghost var sent := d.machine;
    LaterAgain(start, priced, sent);
    if d.quiet { RecoveredRows(sent, priced, i, names, source); }
    var done, after := CheckAfter(d, i, spent);
    LaterAgain(priced, sent, after);
    LaterAgain(start, sent, after);
    LaterAgain(start, after, d.machine);
    if !done { return Blocked, 1; }
    LaterAgain(before, priced, after);
    ObservedRecovery(before, after, i, names, source);
    ConcludePass(start, before, priced, after, d.machine, i);
    return Pass(i.uncertain, i.expired), 1;
  }

  /** After the transaction the records are as the intent wanted them, and no total has changed. */
  lemma RecoveredRows(next: Machine, m: Machine, i: Intent, names: Names, source: nat)
    requires Prepared(i, names, source) && Unchanged(m.store, i) && next == StepMachine(m, Recover(i.now))
    ensures next.store.control == i.nextControl && next.store.totals == m.store.totals
    ensures RowsAre(next.store, RowIds(i.rows), Nexts(i.rows), |i.rows|)
  {
    TransactionRecovers(m, i, names, source);
    assert forall k :: 0 <= k < |i.rows| ==> i.rows[k].id in m.store.jobs;
  }

  lemma ConcludePass(start: Machine, before: Machine, priced: Machine, after: Machine, end: Machine, i: Intent)
    requires Later(start, before) && Later(before, priced) && Later(priced, after) && Later(after, end)
    requires before.store.control == i.control && after.store == RecoverAll(before.store)
    requires after.store.control == i.nextControl
    requires Costs(priced.store.totals, i.total) && Costs(end.store.totals, i.total)
    requires forall k :: 0 <= k < |i.rows| ==> SeenAfter(after, end, i, k)
    ensures Effect(start, before, priced, after, end, i)
  {
    LaterAgain(before, priced, after);
    LaterAgain(priced, after, end);
    SameTotalsLater(priced, end);
    forall k | 0 <= k < |i.rows| ensures SeenAfter(before, end, i, k) {
      assert SeenAfter(after, end, i, k);
      SeenAfterFrom(before, after, end, i, k);
    }
  }

  lemma ObservedRecovery(before: Machine, after: Machine, i: Intent, names: Names, source: nat)
    requires Prepared(i, names, source) && Later(before, after) && before.store.control == i.control
             && after.store.control == i.nextControl
    ensures after.store == RecoverAll(before.store)
  {
    var events :| after == RunMachine(before, events);
    ReadbackProvesRecovery(before, events);
  }
}
