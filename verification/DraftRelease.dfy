/** What a requester is told about a saved request, when giving it up is offered, and the release itself. */
module DraftRelease {
  import opened Prelude
  import opened JobStore
  import opened JobMachine
  import opened JobSafety
  import opened JobProtocol
  import opened JobTracking

  datatype State = NotSubmitted | Pending | Unknown | Failed | CancelledState
  datatype Progress = NotStarted | InProgress | RunOut | NeedsRecovery | Stopped
  datatype Status = Status(state: State, canRelease: bool, revision: nat, progress: Option<Progress>)

  predicate Quiescent(job: Job) { job.phase == Dead && job.reason != Some(ProviderUnconfirmed) }

  predicate RunOutLease(job: Job, now: nat) { job.lease.Some? && job.lease.value.until <= now }

  /** The call may have reached the provider and nobody is known to be still waiting for its answer. */
  predicate Unsettled(job: Job, now: nat) {
    || (job.phase == Calling && (if job.lease.Some? then job.lease.value.until else 0) <= now)
    || job.reason == Some(ProviderUnconfirmed)
    || job.phase == Succeeded
  }

  /** The public draft's view of its job. */
  function DraftStatus(found: Option<Job>, now: nat): Status {
    match found
    case None => Status(NotSubmitted, true, 0, None)
    case Some(job) =>
      var runOut := PreCall(found) && job.reference.expiresAt <= now;
      Status(if runOut then Failed
             else if Quiescent(job) then (if job.reason == Some(Cancelled) then CancelledState else Failed)
             else if Unsettled(job, now) then Unknown else Pending,
             PreCall(found) || Quiescent(job),
             job.revision,
             Some(if runOut then RunOut
                  else if Quiescent(job) then Stopped
                  else if Unsettled(job, now) then NeedsRecovery
                  else if PreCall(found) then NotStarted else InProgress))
  }

  datatype OwnerStatus = Saved | Open(state: State, revision: nat, canRelease: bool) | StaleDraft

  /** The owner interpretation's view of its job; the flag says whether its draft is the one now stored. */
  function Disposition(found: Option<Job>, stored: bool, now: nat): OwnerStatus {
    match found
    case None => if stored then Saved else Open(NotSubmitted, 0, true)
    case Some(job) =>
      if job.phase == Succeeded then (if stored then Saved else StaleDraft)
      else if job.phase == Dead then
        Open(if job.reason == Some(ProviderUnconfirmed) then Unknown else Failed, job.revision,
             job.reason != Some(ProviderUnconfirmed))
      else
        Open(if (job.phase == Calling && (if job.lease.Some? then job.lease.value.until else 0) <= now)
                || (job.reference.expiresAt <= now && job.attempts > 0) then Unknown else Pending,
             job.revision, PreCall(found))
  }

  // ----- what the statuses mean in every reachable state

  ghost predicate Recorded(totals: Totals, events: seq<Event>, id: Id, job: Job) {
    var m := RunMachine(Initial(totals), events);
    id in m.store.jobs && m.store.jobs[id] == job
  }

  lemma RecordedOk(totals: Totals, events: seq<Event>, id: Id, job: Job)
    requires Recorded(totals, events, id, job)
    ensures JobOk(job)
  {
    Reachable(totals, events);
  }

  /** UNKNOWN is said exactly of a job whose call may have been made and has no verdict by a live lease holder;
      it never offers a release. */
  lemma UnknownExactly(totals: Totals, events: seq<Event>, id: Id, job: Job, now: nat)
    requires Recorded(totals, events, id, job)
    ensures DraftStatus(Some(job), now).state == Unknown <==>
              job.phase == Succeeded || Uncertain(job) || (job.phase == Calling && RunOutLease(job, now))
    ensures DraftStatus(Some(job), now).state == Unknown ==>
              !DraftStatus(Some(job), now).canRelease && job.attempts == 1
    ensures DraftStatus(Some(job), now).progress == Some(NeedsRecovery) <==>
              DraftStatus(Some(job), now).state == Unknown
  {
    RecordedOk(totals, events, id, job);
  }

  /** What each of the other answers says about the job, as every reachable job is. */
  lemma StatusExactly(totals: Totals, events: seq<Event>, id: Id, job: Job, now: nat)
    requires Recorded(totals, events, id, job)
    ensures var s := DraftStatus(Some(job), now);
            && (s.state == CancelledState <==> job.reason == Some(Cancelled))
            && (s.state == Failed <==> (job.phase == Dead && job.reason != Some(Cancelled) && !Uncertain(job))
                                       || (job.attempts == 0 && job.phase != Dead && job.reference.expiresAt <= now))
            && (s.state == Pending <==> (job.phase in {Ready, Leased} && job.reference.expiresAt > now)
                                        || (job.phase == Calling && !RunOutLease(job, now)))
            && (s.canRelease <==> job.phase in {Ready, Leased} || (job.phase == Dead && !Uncertain(job)))
            && (s.progress == Some(NotStarted) <==> job.phase in {Ready, Leased} && job.reference.expiresAt > now)
            && (s.progress == Some(InProgress) <==> job.phase == Calling && !RunOutLease(job, now))
            && (s.progress == Some(Stopped) <==> job.phase == Dead && !Uncertain(job))
            && (s.progress == Some(RunOut) <==> job.phase in {Ready, Leased} && job.reference.expiresAt <= now)
  {
    RecordedOk(totals, events, id, job);
  }

  /** A requester is told that nothing was submitted exactly when there is no job; giving up is offered then, and the
      revision it is to name is 0. Of a job the requester learns the very revision, and some progress. */
  lemma AbsentExactly(found: Option<Job>, now: nat)
    ensures var s := DraftStatus(found, now);
            && (s.state == NotSubmitted <==> found.None?) && (s.progress.None? <==> found.None?)
            && (found.None? ==> s.canRelease && s.revision == 0)
            && (found.Some? ==> s.revision == found.value.revision)
  {
  }

  /** The owner is told SAVED exactly when the stored draft is this one and its job has succeeded or was never there;
      that the stored draft is another one exactly when this one's job has succeeded; and anything else with the
      revision to close. An owner is never told that a job was cancelled, only that it failed. */
  lemma DispositionExactly(totals: Totals, events: seq<Event>, id: Id, found: Option<Job>, stored: bool, now: nat)
    requires found.Some? ==> Recorded(totals, events, id, found.value)
    ensures var r := Disposition(found, stored, now);
            && (r.Saved? <==> stored && (found.None? || found.value.phase == Succeeded))
            && (r.StaleDraft? <==> !stored && found.Some? && found.value.phase == Succeeded)
            && (r.Open? ==> r.revision == if found.Some? then found.value.revision else 0)
            && (r.Open? && r.state == NotSubmitted <==> found.None? && !stored)
            && (r.Open? && r.state == Failed <==> found.Some? && found.value.phase == Dead && !Uncertain(found.value))
            && (r.Open? && r.canRelease <==>
                  (found.None? && !stored)
                  || (found.Some? && (found.value.phase in {Ready, Leased}
                                      || (found.value.phase == Dead && !Uncertain(found.value)))))
            && (r.Open? ==> r.state != CancelledState)
  {
    if found.Some? { RecordedOk(totals, events, id, found.value); }
  }

  /** Both views say UNKNOWN of exactly the same jobs and offer a release for exactly the same jobs. Where they differ,
      a job that expired before its call is FAILED in the one and PENDING in the other. */
  lemma ViewsAgree(totals: Totals, events: seq<Event>, id: Id, job: Job, stored: bool, now: nat)
    requires Recorded(totals, events, id, job) && job.phase != Succeeded
    ensures Disposition(Some(job), stored, now).Open?
    ensures Disposition(Some(job), stored, now).canRelease <==> DraftStatus(Some(job), now).canRelease
    ensures Disposition(Some(job), stored, now).state == Unknown <==> DraftStatus(Some(job), now).state == Unknown
    ensures Disposition(Some(job), stored, now).state == Unknown ==> !Disposition(Some(job), stored, now).canRelease
    ensures Disposition(Some(job), stored, now).state == Pending <==>
              DraftStatus(Some(job), now).state == Pending
              || (job.phase in {Ready, Leased} && job.reference.expiresAt <= now)
  {
    RecordedOk(totals, events, id, job);
  }

  /** When a release is offered, nobody is waiting for the provider on behalf of the job, unless it was retired
      on proof that the provider had stopped. */
  lemma ReleasableIsIdle(totals: Totals, events: seq<Event>, token: Token, now: nat)
    requires var m := RunMachine(Initial(totals), events);
             && token in m.workers && m.workers[token].stage.Waiting?
             && DraftStatus(Read(m.store, m.workers[token].id).job, now).canRelease
    ensures var m := RunMachine(Initial(totals), events);
            m.workers[token].id in m.store.jobs && m.store.jobs[m.workers[token].id].proved
  {
    UnansweredStaysQueued(totals, events, token);
    QueueMatchesJobs(totals, events);
  }

  // ----- what a release does to everybody else

  /** Taking a job out closes the gap it leaves and moves nothing else. */
  lemma {:induction false} OthersKeepOrder(active: seq<Id>, id: Id, k: nat)
    requires Distinct(active) && k < |active| && active[k] == id
    ensures WithoutActive(active, id) == active[..k] + active[k + 1..]
  {
    var keep := (x: Id) => x != id;
    if k == 0 {
      assert forall j :: 0 < j < |active| ==> active[j] != id;
      AllKept(active[1..], id);
    } else {
      OthersKeepOrder(active[1..], id, k - 1);
      assert active[0] != id;
      assert active[1..][..k - 1] == active[1..k];
      assert active[..k] == [active[0]] + active[1..k];
      assert active[1..][k..] == active[k + 1..];
    }
  }

  lemma {:induction false} AllKept(active: seq<Id>, id: Id)
    requires id !in active
    ensures WithoutActive(active, id) == active
  {
    if active != [] {
      AllKept(active[1..], id);
      assert active == [active[0]] + active[1..];
    }
  }

  lemma {:induction false} OtherSlotsKeepOrder(slots: seq<Slot>, id: Id)
    requires Pairwise(slots, OtherJob) && |slots| <= MAX_SLOTS
    ensures WithoutSlot(slots, id) ==
              if |slots| > 0 && slots[0].jobId == id then slots[1..]
              else if |slots| > 1 && slots[1].jobId == id then slots[..1] else slots
  {
    if |slots| > 0 {
      var rest := slots[1..];
      assert WithoutSlot(rest, id) == if |rest| > 0 && rest[0].jobId == id then [] else rest by {
        if |rest| > 0 { assert rest[1..] == []; }
      }
      assert slots == [slots[0]] + rest;
      if |rest| > 0 { assert OtherJob(slots[0], slots[1]); }
    }
  }

  // ----- the release handler among all the other participants

  datatype Outcome = Told(status: Status) | StaleContext | RequestUnknown
  datatype Closed = Said(owner: OwnerStatus) | CloseStale | CloseUnknown

  /** What a requester is told once the job is seen to be cancelled. */
  ghost function Confirmed(store: Store, id: Id): Status
    requires IsCancelled(store, id)
  {
    Status(CancelledState, true, store.jobs[id].revision, None)
  }

  ghost predicate Later(m: Machine, next: Machine) {
    exists events :: next == RunMachine(m, events)
  }

  lemma LaterStep(m: Machine, next: Machine, e: Event)
    requires Later(m, next)
    ensures Later(m, StepMachine(next, e))
  {
    var events :| next == RunMachine(m, events);
    RunAppend(m, events, e);
  }

  lemma {:induction false} RunAppend(m: Machine, events: seq<Event>, e: Event)
    ensures RunMachine(m, events + [e]) == StepMachine(RunMachine(m, events), e)
    decreases |events|
  {
    if events == [] {
      assert [e][1..] == [];
      assert events + [e] == [e];
    } else {
      assert (events + [e])[1..] == events[1..] + [e];
      RunAppend(StepMachine(m, events[0]), events[1..], e);
    }
  }

  lemma LaterAgain(m: Machine, mid: Machine, next: Machine)
    requires Later(m, mid) && Later(mid, next)
    ensures Later(m, next)
  {
    var first :| mid == RunMachine(m, first);
    var second :| next == RunMachine(mid, second);
    RunConcat(m, first, second);
  }

  predicate ActsFor(e: Event, token: Token) {
    match e
    case Switch(_) => false
    case Recover(_) => false
    case _ => e.token == token
  }

  lemma OthersLeaveStage(m: Machine, e: Event, token: Token)
    requires token in m.workers && !ActsFor(e, token)
    ensures token in StepMachine(m, e).workers && StepMachine(m, e).workers[token] == m.workers[token]
  {
  }

  /** The shared records and everybody who acts on them; whatever is not the release itself happens in Others. */
  class Deployment {
    ghost const totals: Totals
    /** Nobody else acts, and every write is delivered and acknowledged. */
    const quiet: bool
    var machine: Machine

    constructor (totals: Totals, quiet: bool)
      ensures this.totals == totals && this.quiet == quiet && machine == Initial(totals) && Valid()
    {
      this.totals, this.quiet := totals, quiet;
      machine := Initial(totals);
      new;
      assert Initial(totals) == RunMachine(Initial(totals), []);
    }

    ghost predicate Valid()
      reads this
    {
      Later(Initial(totals), machine)
    }

    method Step(e: Event)
      requires Valid()
      modifies this
      ensures Valid() && machine == StepMachine(old(machine), e) && Later(old(machine), machine)
    {
      LaterStep(Initial(totals), machine, e);
      assert machine == RunMachine(machine, []);
      LaterStep(machine, machine, e);
      machine := StepMachine(machine, e);
    }

    /** Any finite number of steps by anybody but the one participant that is waiting. */
    method Others(waiting: Option<Token>)
      requires Valid()
      modifies this
      ensures Valid() && Later(old(machine), machine)
      ensures waiting.Some? && waiting.value in old(machine.workers) ==>
                waiting.value in machine.workers
                && machine.workers[waiting.value] == old(machine.workers[waiting.value])
      ensures quiet ==> machine == old(machine)
    {
      var events: seq<Event> := *;
      if quiet { events := []; }
      assert machine == RunMachine(machine, []);
      for k := 0 to |events|
        invariant Valid() && Later(old(machine), machine)
        invariant waiting.Some? && waiting.value in old(machine.workers) ==>
                    waiting.value in machine.workers
                    && machine.workers[waiting.value] == old(machine.workers[waiting.value])
        invariant quiet ==> machine == old(machine)
      {
        if waiting.None? || !ActsFor(events[k], waiting.value) {
          label before:
          if waiting.Some? && waiting.value in machine.workers { OthersLeaveStage(machine, events[k], waiting.value); }
          Step(events[k]);
          LaterAgain(old(machine), old@before(machine), machine);
        }
      }
    }

    /** The write is sent once; it may be refused, or applied without an acknowledgement. Then the records are
        read once more. */
    method SendRelease(token: Token, id: Id, reference: Reference, now: nat) returns (observed: Snapshot)
      requires Valid() && token !in machine.workers && PreCall(Read(machine.store, id).job)
      modifies this
      ensures Valid() && Later(old(machine), machine)
      ensures token in machine.workers && machine.workers[token] == Worker(id, Done)
      ensures observed == Read(machine.store, id)
      ensures quiet ==> IsCancelled(machine.store, id)
    {
      Step(Cancel(token, id, reference, now));
      ReleaseStages(old(machine), token, id, reference, now);
      label sent:
      Others(Some(token));
      LaterAgain(old(machine), old@sent(machine), machine);
      label landing:
      var delivered: bool, acked: bool := *, *;
      if quiet {
        delivered, acked := true, true;
        ReleaseSent(old(machine), token, id, reference, now, acked);
      }
      ReleaseLands(machine, token, delivered, acked, now);
      Step(Land(token, delivered, acked, OtherFault, now));
      LaterAgain(old(machine), old@landing(machine), machine);
      label landed:
      Others(Some(token));
      LaterAgain(old(machine), old@landed(machine), machine);
      label observing:
      observed := Read(machine.store, id);
      ReleaseObserves(machine, token);
      Step(Observe(token));
      LaterAgain(old(machine), old@observing(machine), machine);
    }

    /** Reads, classifies, and sends one joined write if the job has not been charged. */
    method Release(token: Token, id: Id, revision: nat, reference: Reference, now: nat) returns (r: Outcome)
      requires Valid() && token !in machine.workers
      modifies this
      ensures Valid() && Later(old(machine), machine)
      ensures r == StaleContext <==> revision != DraftStatus(Read(old(machine).store, id).job, now).revision
      ensures (token in machine.workers && machine.workers[token] == Worker(id, Done)) <==>
                r != StaleContext && PreCall(Read(old(machine).store, id).job)
      ensures token !in machine.workers ==> machine == old(machine)
      ensures var prior := Read(old(machine).store, id).job;
              r != StaleContext ==>
                if PreCall(prior) then
                  (r.Told? <==> IsCancelled(machine.store, id))
                  && (r.Told? ==> r.status == Confirmed(machine.store, id))
                else if prior.value.phase == Dead && !Uncertain(prior.value) then
                  r == Told(Status(if prior.value.reason == Some(Cancelled) then CancelledState else Failed, true,
                                   prior.value.revision, Some(Stopped)))
                else r == RequestUnknown
      ensures r.Told? && r.status.state == CancelledState ==>
                IsCancelled(machine.store, id) && forall c :: c in machine.calls ==> c.id != id
      ensures quiet && r != StaleContext && PreCall(Read(old(machine).store, id).job) ==> r.Told?
    {
      var prior := Read(machine.store, id);
      assert machine == RunMachine(machine, []);
      if revision != (if prior.job.Some? then prior.job.value.revision else 0) { return StaleContext; }
      if prior.job.Some? && Quiescent(prior.job.value) {
        CancelledWasNeverCalled(totals, machine, id);
        return Told(DraftStatus(prior.job, now));
      }
      if !PreCall(prior.job) { return RequestUnknown; }
      var observed := SendRelease(token, id, reference, now);
      if observed.job.Some? && observed.job.value.phase == Dead && observed.job.value.reason == Some(Cancelled) {
        CancelledWasNeverCalled(totals, machine, id);
        return Told(Status(CancelledState, true, observed.job.value.revision, None));
      }
      return RequestUnknown;
    }

    /** The owner's way to give a request up: what is saved or has failed is reported as it is, whatever revision
        was named; otherwise the same single write is sent. */
    method Close(token: Token, id: Id, revision: nat, stored: bool, reference: Reference, now: nat) returns (r: Closed)
      requires Valid() && token !in machine.workers
      modifies this
      ensures Valid() && Later(old(machine), machine)
      ensures var status := Disposition(Read(old(machine).store, id).job, stored, now);
              var sends := status.Open? && status.state != Failed && status.canRelease && revision == status.revision;
              && ((token in machine.workers && machine.workers[token] == Worker(id, Done)) <==> sends)
              && (!sends ==> machine == old(machine))
              && (!sends ==> r == if status.Saved? || (status.Open? && status.state == Failed) then Said(status)
                                 else if status.StaleDraft? || (status.Open? && status.canRelease) then CloseStale
                                         else CloseUnknown)
              && (sends ==> if IsCancelled(machine.store, id)
                            then r == Said(Open(Failed, machine.store.jobs[id].revision, true)) else r == CloseUnknown)
              && (sends && r.Said? ==> forall c :: c in machine.calls ==> c.id != id)
              && (sends && quiet ==> r.Said?)
    {
      var prior := Read(machine.store, id);
      assert machine == RunMachine(machine, []);
      var status := Disposition(prior.job, stored, now);
      if status.StaleDraft? { return CloseStale; }
      if status.Saved? || status.state == Failed { return Said(status); }
      if !status.canRelease { return CloseUnknown; }
      if revision != status.revision { return CloseStale; }
      var observed := SendRelease(token, id, reference, now);
      if observed.job.Some? && observed.job.value.phase == Dead && observed.job.value.reason == Some(Cancelled) {
        CancelledWasNeverCalled(totals, machine, id);
        return Said(Open(Failed, observed.job.value.revision, true));
      }
      return CloseUnknown;
    }
  }

  /** The stages a release goes through by itself. */
  lemma ReleaseStages(m: Machine, token: Token, id: Id, reference: Reference, now: nat)
    requires token !in m.workers && PreCall(Read(m.store, id).job)
    ensures var sent := StepMachine(m, Cancel(token, id, reference, now));
            token in sent.workers && sent.workers[token].id == id && sent.workers[token].stage.Releasing?
            && HasWrite(sent.workers[token].stage)
  {
  }

  lemma ReleaseLands(m: Machine, token: Token, delivered: bool, acked: bool, now: nat)
    requires token in m.workers && m.workers[token].stage.Releasing? && HasWrite(m.workers[token].stage)
    ensures var next := StepMachine(m, Land(token, delivered, acked, OtherFault, now));
            token in next.workers && next.workers[token] == Worker(m.workers[token].id, Observing)
  {
  }

  lemma ReleaseObserves(m: Machine, token: Token)
    requires token in m.workers && m.workers[token].stage.Observing?
    ensures var next := StepMachine(m, Observe(token));
            token in next.workers && next.workers[token] == Worker(m.workers[token].id, Done) && next.store == m.store
  {
  }

  /** With nobody in between, a delivered release of an uncharged job takes effect, acknowledged or not, and is
      reported. */
  lemma UndisturbedRelease(m: Machine, token: Token, id: Id, reference: Reference, now: nat, acked: bool)
    requires token !in m.workers && PreCall(Read(m.store, id).job)
    ensures var next := RunMachine(m,
                                   [Cancel(token, id, reference, now), Land(token, true, acked, OtherFault, now),
                                    Observe(token)]);
            IsCancelled(next.store, id) && id in next.reported && id !in next.store.control.active
  {
    var sent := StepMachine(m, Cancel(token, id, reference, now));
    var landed := StepMachine(sent, Land(token, true, acked, OtherFault, now));
    ReleaseSent(m, token, id, reference, now, acked);
    ReleaseSeen(landed, token, id);
    RunThree(m, Cancel(token, id, reference, now), Land(token, true, acked, OtherFault, now), Observe(token));
  }

  lemma ReleaseSent(m: Machine, token: Token, id: Id, reference: Reference, now: nat, acked: bool)
    requires token !in m.workers && PreCall(Read(m.store, id).job)
    ensures var landed := StepMachine(StepMachine(m, Cancel(token, id, reference, now)),
                                      Land(token, true, acked, OtherFault, now));
            && token in landed.workers && landed.workers[token] == Worker(id, Observing)
            && IsCancelled(landed.store, id) && id !in landed.store.control.active
  {
    ReleaseStages(m, token, id, reference, now);
    ReleaseLands(StepMachine(m, Cancel(token, id, reference, now)), token, true, acked, now);
  }

  lemma ReleaseSeen(m: Machine, token: Token, id: Id)
    requires token in m.workers && m.workers[token] == Worker(id, Observing) && IsCancelled(m.store, id)
    ensures StepMachine(m, Observe(token)).store == m.store && id in StepMachine(m, Observe(token)).reported
  {
  }

  /** A job found cancelled was never sent to the provider. */
  lemma CancelledWasNeverCalled(totals: Totals, m: Machine, id: Id)
    requires Later(Initial(totals), m)
    ensures IsCancelled(m.store, id) ==> forall c :: c in m.calls ==> c.id != id
  {
    var events :| m == RunMachine(Initial(totals), events);
    Reachable(totals, events);
    if IsCancelled(m.store, id) { assert JobOk(m.store.jobs[id]); }
  }

  /** And it never will be, whoever acts on it later. */
  lemma CancelledStaysCancelled(totals: Totals, m: Machine, id: Id, later: seq<Event>)
    requires Later(Initial(totals), m) && IsCancelled(m.store, id)
    ensures IsCancelled(RunMachine(m, later).store, id) && forall c :: c in RunMachine(m, later).calls ==> c.id != id
  {
    var events :| m == RunMachine(Initial(totals), events);
    Reachable(totals, events);
    StaysCancelled(totals, m, id, later);
    RunConcat(Initial(totals), events, later);
    CancelledWasNeverCalled(totals, RunMachine(m, later), id);
  }

  lemma StaysCancelled(totals: Totals, m: Machine, id: Id, later: seq<Event>)
    requires MachineOk(m, totals) && IsCancelled(m.store, id)
    ensures IsCancelled(RunMachine(m, later).store, id)
  {
    var noted := m.(reported := m.reported + {id});
    assert MachineOk(noted, totals);
    NotedRun(m, noted, later, id);
    RunMachineKeeps(noted, totals, later);
    ReportsStay(noted, later);
  }

  /** What has been reported decides nothing. */
  lemma {:induction false} NotedRun(m: Machine, noted: Machine, events: seq<Event>, id: Id)
    requires SameButNotes(m, noted)
    ensures RunMachine(noted, events).store == RunMachine(m, events).store
    ensures RunMachine(noted, events).calls == RunMachine(m, events).calls
    decreases |events|
  {
    if events != [] {
      NotedStep(m, noted, events[0]);
      NotedRun(StepMachine(m, events[0]), StepMachine(noted, events[0]), events[1..], id);
    }
  }

  ghost predicate SameButNotes(m: Machine, noted: Machine) {
    noted.store == m.store && noted.workers == m.workers && noted.callers == m.callers && noted.calls == m.calls
  }

  lemma NotedLand(m: Machine, noted: Machine, token: Token, delivered: bool, acked: bool, fault: Fault, now: nat)
    requires SameButNotes(m, noted)
    ensures SameButNotes(StepMachine(m, Land(token, delivered, acked, fault, now)),
                         StepMachine(noted, Land(token, delivered, acked, fault, now)))
  {
  }

  lemma NotedCall(m: Machine, noted: Machine, e: Event)
    requires SameButNotes(m, noted) && (e.Dispatch? || e.Answer?)
    ensures SameButNotes(StepMachine(m, e), StepMachine(noted, e))
  {
  }

  lemma NotedEnd(m: Machine, noted: Machine, e: Event)
    requires SameButNotes(m, noted) && (e.Settle? || e.Observe?)
    ensures SameButNotes(StepMachine(m, e), StepMachine(noted, e))
  {
  }

  lemma NotedRead(m: Machine, noted: Machine, e: Event)
    requires SameButNotes(m, noted) && (e.Load? || e.Catch?)
    ensures SameButNotes(StepMachine(m, e), StepMachine(noted, e))
  {
  }

  lemma NotedEntry(m: Machine, noted: Machine, e: Event)
    requires SameButNotes(m, noted) && (e.Submit? || e.Begin? || e.Resolve? || e.Cancel? || e.Switch? || e.Recover?)
    ensures SameButNotes(StepMachine(m, e), StepMachine(noted, e))
  {
  }

  lemma NotedStep(m: Machine, noted: Machine, e: Event)
    requires SameButNotes(m, noted)
    ensures SameButNotes(StepMachine(m, e), StepMachine(noted, e))
  {
    if e.Land? { NotedLand(m, noted, e.token, e.delivered, e.acked, e.fault, e.now); }
    else if e.Submit? || e.Begin? || e.Resolve? || e.Cancel? || e.Switch? || e.Recover? { NotedEntry(m, noted, e); }
    else if e.Load? || e.Catch? { NotedRead(m, noted, e); }
    else if e.Settle? || e.Observe? { NotedEnd(m, noted, e); }
    else { NotedCall(m, noted, e); }
  }
}
