# Verified models of Known Enough

Known Enough lets a group of people make decisions together with the help of a model provider. These files model
the parts of it whose correctness depends on the order of things, and prove what those parts promise. `dafny verify
dfyconfig.toml` checks the whole project.

**Groups and decisions** (`GroupState`, `GroupTransitions`, `GroupService`, `GroupInvariant`, `GroupHistory`,
`GroupRevocation`, `GroupWitnesses`, `GroupEffects`, `GroupRemovals`, `GroupAdmission`, `GroupFrames`, `GroupReplay`,
`DecisionRecord`, `DecisionCreation`, `DecisionService`). One stored state holds accounts, groups, members, invitations, decision bindings and drafts.
Every repository transaction is one atomic step: `GroupTransitions` says what it does as a function of the state
before it, and `GroupService` carries it out step by step on a store that stays in order; the decision service of
`DecisionService` runs on that store. A fence is evaluated, and its change applied, together with the decision
write it is joined with. Version numbers decide who may touch a decision; the main results say what removal,
joining, rebinding, revision and repeated creation can and cannot do along every run. `GroupAdmission` says exactly
when each transaction goes through, `GroupEffects` and `GroupRemovals` what it means for the people it concerns, and
`GroupFrames` what it leaves alone.

**Durable jobs** (`JobStore`, `JobMachine`, `JobSafety`, `JobProtocol`, `JobTracking`, `JobOutcomes`, `JobDelivery`,
`DraftRelease`, `QueueRecovery`, `DurableEnqueue`, `EnqueuedJobs`, `DeliveryId`). Any number of workers, requesters and releasers
act on shared job records by a joined compare-and-swap. A write may be lost, refused, or applied without its
acknowledgement; a participant may stop anywhere; every clock reading is its own value. Over all interleavings: one
provider call per job, conserved reservations, at most two retries, a queue that matches the jobs, releases and
whole-queue recoveries that are what they say, and enqueue requests that are served and all end at one job.

**Crash-safe installers** (`InstallState`, `ReviewedInstaller`, `AccessInstaller`). Each writes a durable intent and
then sends one cloud mutation. A run may end between any two steps and inside a file write, which leaves the file
torn; remote answers are arbitrary. Over any number of runs at most one create and one execute are sent.

**Candidates and questions** (`CatalogGuidance`, `EnumCatalog`, `Questions`). Batched previews, index alignment,
exhaustive enumeration, and the pigeonhole argument behind the permission questions.

**Small machines** (`RequestSlots`, `BoundedCapture`, `DirectLogin`, `ChoiceMerge`). Two admission counters, a
two-pipe capture loop, a generation counter, and a merge of suggestions.

## Assumptions

- Subjects, identifiers, tokens and digests are only compared, so numbers stand for them. The digest of group and
  draft into a decision identifier is injective where a lemma says `Injective`; no decision is bound by hand under
  such an identifier (`Allowed`). The authority hash is represented by what it digests, and an invitation token by
  its digest.
- A refused transaction throws, so nothing of it is written.
- The kernel's preview of a batch of candidates is pointwise, and pending question targets are distinct.
- Texts that are not blank after trimming do not compare equal to the blank text (`Sensible`).
- The cloud describes a change set only if its creation was asked for, and under one identifier for each name. What a
  job's authority hash digests can be read back where a lemma says `RoundTrip`.
- One state folder is used by one run of an installer at a time; its lock makes runs sequential.
- Nondeterministic assignments (`:= *`, `:|`) stand for the remote side, the clock, crashes and other participants.
  Where a desk, bridge or deployment is `quiet`, an installer `steady`, a folder `calm` or a clock `still`, none of that
  interferes, and the contracts say what then comes about.

## Where code and expectation differ

- Removing a member makes every binding of that group stale, but authorization consults the first group that binds a
  decision. `RemovalRevokes` is the exact condition: afterwards nobody is authorised for a decision the group binds, as
  long as it is not reopened, if and only if no earlier group binds it as well, or that group is deleted or has no
  current binding of it. What reopens it is exact too (`StepShutExactly`, `RunShutExactly`): a rebind by the group that
  answers for it, or a first binding by hand in an earlier group. `SharedDecisionEscapesRemoval` and
  `LaterBindingReopens` are runs from the empty state that show each half failing. Both need a decision bound by hand;
  for a decision created from a draft the property holds along every run until its group rebinds it
  (`RemovalRevokesDerived`). No route of the application binds by hand.
- A begin of reasoning is not conditioned on the control version a request expects. `OvertakenBeginIsRefused` is, for
  every expected context, a run in which the request starts a kernel job for a later version and is then refused;
  `BeginUnderExpected` is the exact condition: a begin that takes effect does so under the expected next version if and
  only if the record still has the expected version when it is applied. Besides, begins that take effect do so under
  different control versions (`AtMostOnce`), and only the job of the expected version yields receipts (`OneJobId`).

## Model

| member | source | states |
|---|---|---|
| GroupService.GroupStore.Accept | apps/api/src/group-service.ts:162-192 | Step by step on the stored state, which stays in order: the loop over the bindings moves exactly the current, undeleted ones to the new version; a refusal writes nothing |
| GroupService.GroupStore.RemoveItem | apps/api/src/group-service.ts:207-225 | Step by step on the stored state, which stays in order: exactly what the transition does, whose effect is stated below |
| GroupService.GroupStore.DeleteGroup | apps/api/src/group-service.ts:238-250 | Two loops delete every binding and every draft of the group; the stored state stays in order |
| GroupService.GroupStore.Reserve | apps/api/src/group-decisions.ts:97-115 | The loop checks and collects the members; the attempt handed out is exactly that of the transition, and the stored state stays in order |
| GroupEffects.RegisterGives | apps/api/src/group-service.ts:54-70 | Registering gives the subject the e-mail digest, and nobody else, keeps everybody else's, and approves nobody; it adds exactly a pending account of version 1, or nothing if there is an account already |
| GroupEffects.OperateGives | apps/api/src/group-operator.ts:4-18 | An operator's action decides the approval of one subject and nobody else's, one version on; a rejected or disabled subject is authorised for no decision |
| GroupEffects.OperatorsRace | apps/api/src/group-operator.ts:11-14 | Of two actions on the same version of an account, the second goes through if and only if it is the same action |
| GroupEffects.CreateGroupGives | apps/api/src/group-service.ts:117-130 | After creating, or creating again, exactly one group has the identifier, live and under that name; nobody's answer for any decision changes, and a new group is open to its creator alone |
| GroupEffects.InviteGives | apps/api/src/group-service.ts:131-161 | After inviting, the recipient holds exactly the new invitation, everybody else exactly those that had not run out, and no answer changes |
| GroupEffects.InvitationOpens | apps/api/src/group-service.ts:131-192 | With a token new to the live groups: accepting succeeds if and only if it is an approved account with the invited e-mail, within 24 hours, while the group has room; it then adds exactly that person |
| GroupEffects.RenameGives | apps/api/src/group-service.ts:193-206 | A renaming goes through only from the name shown before or the new one; then the new name is shown, nothing else is shown differently, and no answer changes |
| GroupEffects.RemoveGives | apps/api/src/group-service.ts:226-237 | A removal takes out exactly the one member it names and never the organizer, leaves no binding of the group current, and refuses every creation reserved before it |
| GroupEffects.BindGives | apps/api/src/group-service.ts:285-295 | Binding by hand makes the decision current in the group and changes no other binding |
| GroupEffects.BindingCloses | apps/api/src/group-service.ts:252-295 | A decision that no group binds is open to every approved account; binding it leaves exactly the approved members |
| GroupEffects.SaveDraftGives | apps/api/src/group-decisions.ts:58-65 | A draft is saved only under an identifier that is new or held by a live draft of the same request body; then it is there at revision 1 with that body, frame, questions and roster version, every other draft stays, and no answer changes |
| GroupEffects.EditGives | apps/api/src/group-decisions.ts:76-92 | Only a draft nothing was created from is edited, under its present revision; it gets the next one, the new title, objective and content, and asks what its new frame leaves open; every other draft and every answer stays, and reserving the earlier revision is refused from then on |
| GroupEffects.ReservationLocks | apps/api/src/group-decisions.ts:80-115 | After a reservation no edit of the draft goes through, by whomever and of whatever revision |
| GroupEffects.ReserveGives | apps/api/src/group-decisions.ts:97-115 | A first reservation locks exactly its draft, which keeps its content, and binds exactly its decision, which is current then; no answer for any other decision changes; a repeated one changes nothing |
| GroupEffects.ShownExactly | apps/api/src/group-service.ts:193-206 | A decision is shown under the name it was given, else under the title of the draft it was created from, else under a stock name |
| GroupRemovals.RemoveDecisionGives | apps/api/src/group-service.ts:207-225 | Removing a decision: if the group answers for it, nobody is authorised for it any more; every other answer stays; exactly the drafts it was created from are deleted; no creation of it passes the fence |
| GroupRemovals.RemovedForGood | apps/api/src/group-service.ts:207-225 | Along every later run in which nobody binds it by hand, nobody is authorised for a removed decision, and every approved participant is told NOT_FOUND; a decision created from a draft needs no such condition |
| GroupRemovals.RemoveDraftGives | apps/api/src/group-service.ts:207-225 | Removing a draft deletes exactly that draft and changes no answer |
| GroupRemovals.DraftGoneForGood | apps/api/src/group-service.ts:207-225 | Along every later run every edit, reservation and saving of a removed draft is refused |
| GroupRemovals.DeleteGroupGives | apps/api/src/group-service.ts:238-250 | Deleting a group shuts every decision it answers for, deletes every draft of it, lets nobody find it, and changes no other answer |
| GroupAdmission.OrganizerGoesThrough | apps/api/src/group-service.ts:131-295 | An organizer's transaction goes through if and only if the caller is the approved organizer of a live group of that identifier, and that group suits it: the condition of each is stated on its members, invitations, bindings and drafts |
| GroupAdmission.OthersGoThrough | apps/api/src/group-service.ts:54-130 | The same for registering, creating a group and the operator's actions |
| GroupAdmission.AcceptGoesThrough | apps/api/src/group-service.ts:162-192 | An invitation is accepted if and only if the caller is the approved holder of its address, in time, and either has accepted it and is a member, or it is open and there is room |
| GroupAdmission.FenceExactly | apps/api/src/group-decisions.ts:117-124 | A creation passes the fence if and only if its caller is the approved organizer, the attempt has exactly the present members, all approved, at the present version, and neither draft nor decision has been removed |
| GroupFrames.EveryStepIsLocal | apps/api/src/group-service.ts:54-295 | Every transaction changes at most one group or one account, and of a group only what it is about |
| GroupInvariant.RegisterKeeps | apps/api/src/group-service.ts:54-70 | Registration keeps subjects and e-mail digests unique and touches nobody else |
| GroupInvariant.OperateKeeps | apps/api/src/group-operator.ts:9-16 | A change of status keeps every account's subject and e-mail digest |
| GroupInvariant.InviteKeeps | apps/api/src/group-service.ts:144-153 | After an invitation the recipients of a group are still distinct and none of its unaccepted invitations addresses a member |
| GroupInvariant.AcceptKeeps | apps/api/src/group-service.ts:169-192 | Joining keeps the members distinct and at most sixteen, and leaves no unaccepted invitation for the person who joined |
| GroupInvariant.RemoveKeeps | apps/api/src/group-service.ts:226-237 | Removal keeps the organizer a member and all else in order |
| GroupInvariant.DeleteGroupKeeps | apps/api/src/group-service.ts:238-250 | Deleting a group keeps the whole state well formed |
| GroupInvariant.ReserveKeeps | apps/api/src/group-decisions.ts:97-115 | After a reservation every draft names its derived decision exactly when that decision is bound |
| GroupInvariant.StepKeeps | apps/api/src/group-service.ts:54-295 | Every transaction keeps the whole invariant of accounts, members, invitations, bindings and drafts |
| GroupInvariant.ReachableWellFormed | apps/api/src/group-service.ts:54-295 | In every state reachable by any sequence of transactions the invariant holds |
| GroupHistory.EveryStepEvolves | apps/api/src/group-service.ts:117-295 | Across any transaction: versions never fall, an unchanged version means unchanged members, a binding moves only while current or by a rebind, and a draft that has created a decision keeps its content |
| GroupHistory.AuthorizeExactly | apps/api/src/group-service.ts:252-274 | A participant passes exactly as an approved member of the live group that binds the decision, with a live binding at the group's exact version; or as anybody approved when no group binds it |
| GroupHistory.AcceptCarriesCurrent | apps/api/src/group-service.ts:181-184 | Joining makes a binding current if and only if it was current before, and adds exactly the person who joined |
| GroupHistory.JoiningGrants | apps/api/src/group-service.ts:181-190 | Who joins is authorised for exactly the current decisions, and nobody else gains or loses access |
| GroupHistory.RebindRestores | apps/api/src/group-decisions.ts:155-161 | After a rebind exactly the approved members are authorised for the decision |
| GroupHistory.RunStaysOutside | apps/api/src/group-service.ts:144-192 | An outsider without an open invitation stays outside along every run in which nobody invites that e-mail address |
| GroupHistory.RemovedStaysOut | apps/api/src/group-service.ts:226-237 | The person a removal named rejoins only through an invitation issued after it |
| GroupRevocation.ShutExactly | apps/api/src/group-service.ts:252-274 | A decision is authorised for nobody, participant or display, if and only if the group that answers for it is deleted or has no current binding of it |
| GroupRevocation.StepShutExactly | apps/api/src/group-service.ts:226-295 | A decision that is shut to everybody is open after a transaction if and only if that was a rebind by the group that answers for it, or a first binding by hand in an earlier group |
| GroupRevocation.RunShutExactly | apps/api/src/group-service.ts:226-295 | The same over whole runs: it stays shut throughout if and only if none of these two happens |
| GroupRevocation.RemovalRevokes | apps/api/src/group-service.ts:226-237 | After a removal, a decision bound by the group is shut to everybody along every run that does not reopen it, if and only if that group answers for the decision or it was shut already |
| GroupRevocation.RemovalElsewhere | apps/api/src/group-service.ts:266-271 | When an earlier group binds the decision too, the removal changes nobody's answer |
| GroupRevocation.RemovalRevokesDerived | apps/api/src/group-decisions.ts:97-115 | For a decision created from a draft nothing else needs to be supposed: after a removal nobody is authorised for it along any allowed run, until its group rebinds it |
| GroupWitnesses.SharedDecisionEscapesRemoval | apps/api/src/group-service.ts:258-271 | For every suitable digest, a run from the empty state after which a removed member keeps access to a decision the group binds |
| GroupWitnesses.LaterBindingReopens | apps/api/src/group-service.ts:285-295 | For every suitable digest, a run from the empty state after which a removal shuts a decision and one later binding by hand opens it again for the removed person |
| GroupReplay.RepeatedSucceeds | apps/api/src/group-service.ts:54-295 | A registration, account step, creation, acceptance, renaming, item removal, binding, saved draft, reservation or rebind that went through and is sent again succeeds and leaves the state as it is |
| GroupReplay.RepeatedRefuses | apps/api/src/group-service.ts:131-250 | An edit, removal, group deletion or invitation that does not ask to replace, sent again, is refused: its own first success has made it stale, or its group is gone |
| GroupReplay.ReserveAgain | apps/api/src/group-decisions.ts:97-115 | A repeated reservation hands out the same attempt |
| DecisionRecord.IncludeGives | packages/application/src/known-enough.ts:129-160 | Including a group leaves an open decision with exactly its members, each once, those recorded before first and in their order, on the same terms; a finished one is as it was |
| DecisionRecord.IncludeExactly | packages/application/src/known-enough.ts:129-160 | When including a group is refused, and when it leaves the record as it is |
| DecisionRecord.ReviseGives | packages/application/src/known-enough.ts:1064-1108 | A revision that goes through leaves exactly the new members, each once, on the new terms and the decision open, unless it would only change the people of a finished decision, which is as it was |
| DecisionRecord.ReviseExactly | packages/application/src/known-enough.ts:1064-1108 | A revision goes through if and only if only the people of a finished decision would change, or it is not closed and the new members are the new participants, each once |
| DecisionCreation.StepWorldKeeps | apps/api/src/group-decisions.ts:93-166 | Every group transaction, reading of a roster, creation, revision and other decision transaction keeps all attempts backed by their locked draft, every record backed by an attempt with its participants as its members and its creator among them, and every roster read the group's own while its version stands |
| DecisionCreation.ReservationsAgree | apps/api/src/group-decisions.ts:97-116 | All attempts that pass the reservation of one decision carry the same frame, revision, memberships, creator and body, whatever interleaves |
| DecisionCreation.ReplayNeverConflicts | packages/application/src/known-enough.ts:436-446 | A retried creation finds its decision absent or is given its own, exactly as it is there or not; it is never told of a conflict, of another creator, or that the creator is no member |
| DecisionCreation.CreatedWithCurrentRoster | apps/api/src/group-decisions.ts:117-131 | A decision is created with exactly the members its group has at that moment, all of them approved, on exactly the frame of the locked draft, open and at control version 0; and as long as nothing has changed it, it is that |
| DecisionCreation.RevisedWithCurrentRoster | apps/api/src/group-decisions.ts:148-166 | A roster read at some earlier time is the group's own at the moment of a revision: the decision then has exactly the present members, all approved, on the new terms; what is recorded of a finished decision stays unless its terms change |
| DecisionCreation.RosterExactly | apps/api/src/group-decisions.ts:134-147 | A roster is shown if and only if the caller organizes the live group and every member is approved, and it is that group's members at its version |
| DecisionCreation.DecisionRosterExactly | packages/adapters/src/partition-decision-repository.ts:408-419 | The same for the members of the group that answers for a decision, shown to a member while its binding is current |
| DecisionCreation.JoinedWithCurrentRoster | packages/adapters/src/partition-decision-repository.ts:408-419 | A decision transaction that includes who has joined leaves an open decision with exactly the members of the group that answers for it, all approved, the recorded participants first; a finished one keeps its own |
| DecisionCreation.CreatorStaysMember | packages/application/src/known-enough.ts:131-160 | In every reachable world the members of a decision are its participants, each once, with the creator among them, through every revision and every joining |
| DecisionCreation.CreatedOnce | packages/application/src/known-enough.ts:1064-1108 | Along every run what a decision was created from stays, and an unchanged control version means an unchanged record |
| DecisionService.DecisionDesk.ReserveDraft | apps/api/src/group-decisions.ts:97-115 | The first phase of a creation refuses exactly when the reservation does, and otherwise leaves its attempt on record |
| DecisionService.DecisionDesk.FindOrWrite | apps/api/src/group-decisions.ts:117-131 | Whatever others do in between: refused exactly by the fence, never told of a conflict, and what it finds or writes was created from exactly this attempt |
| DecisionService.DecisionDesk.WriteDecision | packages/application/src/known-enough.ts:425-432 | A write that finds the decision there, or whose acknowledgement is lost, is resolved by looking it up |
| DecisionService.DecisionDesk.CreateDecision | apps/api/src/group-decisions.ts:93-134 | The whole creation, with anybody acting between its phases: it answers only with the decision of its own reservation, to its creator, who is authorised for it by then; while nothing has changed that decision it has the frame and members of the attempt. With nobody interfering its answer is the one UndisturbedIsReady describes |
| DecisionService.UndisturbedIsReady | apps/api/src/group-decisions.ts:93-134 | If the participants of the draft are the members of its group, an undisturbed, admitted creation that passes its reservation answers with the decision as it was there already, or with a new one: on the frame of the draft, with the members of the group, open |
| DecisionService.UnadmittedCreatesNothing | apps/api/src/group-decisions.ts:117-131 | A creation that is not admitted answers only with a decision that was there already, as it was |
| DecisionService.RevisableGoes | apps/api/src/group-decisions.ts:134-168 | An undisturbed revision of a decision that can be revised as it was seen goes through and is shown |
| DecisionService.DecisionDesk.ReviseRoster | apps/api/src/group-decisions.ts:134-168 | The whole revision, with anybody acting between its phases: an answer means that the decision exactly as it was seen was, in one write, rebound and given the members its group had at that moment, on unchanged terms, or kept its own if it was finished; it is shown only to an authorised organizer |
| JobSafety.NextQueueOk | packages/adapters/src/durable-model-jobs.ts:132-138 | Every protocol write keeps the queue equal to the unfinished jobs and at most two slots, each for its job's own lease |
| JobSafety.CommitKeeps | packages/adapters/src/dynamo-model-jobs.ts:155-175 | Any write that takes effect on the records it was based on keeps jobs, queue, slots and totals in order; no lease and no slot outlasts the reference of its job, and a call without a verdict keeps its slot |
| JobSafety.RecoverKeeps | scripts/fix01/queue-recovery.py:41-58 | Retiring the whole queue keeps the records in order, finishes every job and leaves the totals alone |
| JobProtocol.StepMachineKeeps | packages/adapters/src/durable-model-jobs.ts:99-249 | Every step of every participant keeps the protocol invariant, with writes that may be lost, refused or applied unacknowledged; how each worker goes on is the code's, from lease to completion, retry and quarantine |
| JobProtocol.OneCallPerJob | packages/adapters/src/durable-model-jobs.ts:144-249 | Over every run no job is sent to the provider twice |
| JobProtocol.ReservationsConserved | packages/adapters/src/durable-model-jobs.ts:177-185 | Over every run the totals grow by exactly 18432 tokens and 10000 cost units for each charged job, and every call belongs to the token that charged it |
| JobProtocol.CancelledNeverCalled | apps/api/src/partition-draft-recovery.ts:56-69 | A job reported as cancelled was never sent to the provider, and along every later run it is not sent and stays cancelled |
| JobProtocol.QueueMatchesJobs | packages/adapters/src/durable-model-jobs.ts:132-171 | In every reachable state the queue lists exactly the unfinished jobs, without repeats, and at most two slots are taken |
| JobTracking.UnansweredStaysQueued | packages/adapters/src/durable-model-jobs.ts:223-247 | While a worker waits for the provider its job stays queued, or was retired on proof, and cannot be released |
| JobTracking.CompleteLedger | scripts/fix01/queue-recovery.py:26-33 | If as many distinct calls are known to have completed as attempts were reserved, then every call ever sent has completed |
| JobOutcomes.RetriesCounted | packages/adapters/src/durable-model-jobs.ts:223-247 | In every run the failures of a job are the retries that took effect for it, and at most two |
| JobOutcomes.RetriedExactly | packages/adapters/src/durable-model-jobs.ts:223-247 | A retry is noted exactly when a step gives a leased job back |
| JobOutcomes.UsageAsAnswered | packages/adapters/src/durable-model-jobs.ts:198-215 | The usage of a job is what the provider answered to the one call made for it, unless it was retired on proof; it never exceeds the reservation, and a job has succeeded only with it |
| JobOutcomes.CompletesThrice | packages/adapters/src/durable-model-jobs.ts:204-222 | A worker tries to complete its job at most three times |
| JobOutcomes.ReasonTellsCharge | packages/adapters/src/durable-model-jobs.ts:99-247 | The reason for which a job was given up tells whether it was charged |
| JobOutcomes.RevisionsTell | packages/adapters/src/durable-model-jobs.ts:99-249 | Along every run an unchanged revision means an unchanged record, and a job keeps its reference; its failures and its charge are never taken back |
| JobDelivery.ProceedsExactly | packages/adapters/src/durable-model-jobs.ts:139-211 | Before it reserves, renews, calls or completes, a worker goes on if and only if the authority it reloaded is current and its own lease runs on an enabled queue |
| JobDelivery.RefusedCheck | packages/adapters/src/durable-model-jobs.ts:139-223 | A check that fails makes the worker give up, with the cause and the usage it has by then |
| JobDelivery.SentExactly | packages/adapters/src/durable-model-jobs.ts:168-191 | How a worker goes on after each of its writes |
| JobDelivery.CompletionExactly | packages/adapters/src/durable-model-jobs.ts:204-222 | A refused completion is tried again while the lease runs, up to three times; one whose fate is unknown is not |
| JobDelivery.DeliveryExactly | packages/adapters/src/durable-model-jobs.ts:144-171 | What one undisturbed delivery does to any reachable record: quarantine, end, lease or nothing |
| JobDelivery.FailureExactly | packages/adapters/src/durable-model-jobs.ts:223-247 | What an undisturbed failure leaves: quarantined or ended by cause once charged; before that, given back for a retry after half a second or a second, or dead: with RETRY_LIMIT when two retries are behind it, the queue is off or it has expired |
| JobDelivery.DeliverySucceeds | packages/adapters/src/durable-model-jobs.ts:144-215 | A whole undisturbed delivery calls once, charges once and leaves the job succeeded with the answered usage, out of queue and slots |
| JobDelivery.SubmitExactly | packages/adapters/src/durable-model-jobs.ts:99-112 | When a submission enters a job, and what it is |
| JobDelivery.ReconcileExactly | packages/adapters/src/durable-model-jobs.ts:115-131 | An undisturbed proof retires exactly an unconfirmed job, with a usage within what was reserved |
| DraftRelease.UnknownExactly | apps/api/src/partition-draft-recovery.ts:45-52 | In every reachable state UNKNOWN is said exactly of jobs whose call may have been made and has no live holder; it never offers a release |
| DraftRelease.StatusExactly | apps/api/src/partition-draft-recovery.ts:45-52 | What each other state and progress word says about a reachable job, both directions |
| DraftRelease.AbsentExactly | apps/api/src/partition-draft-recovery.ts:48-52 | NOT_SUBMITTED is said exactly when there is no job; the revision told is the one a release is to name |
| DraftRelease.DispositionExactly | apps/api/src/partition-owner-runtime.ts:60-69 | What each answer of the owner's view says about the stored draft and a reachable job, both directions |
| DraftRelease.ViewsAgree | apps/api/src/partition-owner-runtime.ts:60-69 | The owner's view says UNKNOWN of exactly the same unfinished jobs and offers a release for exactly the same ones, although it tests one more condition; a job that expired before its call is the only one it calls pending that the other calls failed |
| DraftRelease.ReleasableIsIdle | apps/api/src/partition-draft-recovery.ts:45-52 | When a release is offered nobody waits for the provider on that job's behalf, unless it was retired on proof |
| DraftRelease.OthersKeepOrder | apps/api/src/partition-draft-recovery.ts:60-60 | A release closes the gap it leaves in the queue and moves nothing else |
| DraftRelease.OtherSlotsKeepOrder | apps/api/src/partition-draft-recovery.ts:61-61 | The same for the slots |
| DraftRelease.Deployment.Release | apps/api/src/partition-draft-recovery.ts:41-69 | Among any other participants: refuses exactly a wrong revision, sends one write exactly for an uncharged job and then reports CANCELLED, with the revision read back, exactly if the job is cancelled; of a job that had stopped it reports exactly how, and of any other UNKNOWN. A job reported cancelled was never sent; undisturbed, a release is reported |
| DraftRelease.Deployment.Close | apps/api/src/partition-owner-runtime.ts:74-89 | The owner's closing: when it sends, what it says otherwise, that after sending it confirms exactly a cancelled job, which was never sent, and that it does so if nobody interferes |
| DraftRelease.UndisturbedRelease | apps/api/src/partition-draft-recovery.ts:60-68 | With nobody in between, a delivered release takes effect and is reported, acknowledged or not |
| DraftRelease.CancelledStaysCancelled | apps/api/src/partition-draft-recovery.ts:66-69 | A job found cancelled is never sent, whoever acts on it later |
| QueueRecovery.ProvenExactly | scripts/fix01/queue-recovery.py:26-33 | The completion proof succeeds if and only if reserved tokens and cost exceed the baseline by exactly n attempts, 1 to 256, nothing else was spent, and exactly n receipts with distinct events and requests fall into the period; it returns that n |
| QueueRecovery.QualifiedExactly | scripts/fix01/queue-recovery.py:29-31 | The receipts counted are exactly those of the period, as often as they were read |
| QueueRecovery.Retire | scripts/fix01/queue-recovery.py:42-54 | One job is recognised exactly when it is expired and either uncertain with a run-out slot or never charged without a live lease; it becomes dead one revision on |
| QueueRecovery.OwnedExactly | scripts/fix01/queue-recovery.py:42-48 | A job is owned if and only if its reference reads as a public request of this source whose draft and delivery identifiers are the ones computed again |
| QueueRecovery.PrepareIntent | scripts/fix01/queue-recovery.py:35-58 | An intent is prepared if and only if source, authority, scope, ledger, every slot and every queued job with its recomputed identity pass; its rows are the jobs in queue order, and uncertain plus expired is their number |
| QueueRecovery.PreparedRetiresAnswered | scripts/fix01/queue-recovery.py:26-58 | An intent prepared in any reachable state, on receipts of calls that were made, retires only jobs whose call, if they were charged, is answered; so is every call ever made |
| QueueRecovery.ReachableInScope | scripts/fix01/queue-recovery.py:38-56 | In every reachable state a non-empty enabled queue passes the scope checks, and each slot belongs to it |
| QueueRecovery.RecoverableExactly | scripts/fix01/queue-recovery.py:41-55 | In every reachable state the recovery recognises a queued job if and only if its reference has expired and it is not calling; nothing else of the records holds it up |
| QueueRecovery.ReachablePreparable | scripts/fix01/queue-recovery.py:35-56 | From an enabled, non-empty queue of a reachable state an intent is prepared if and only if authority, source and ledger warrant it and every queued job is owned, has expired and is not calling |
| QueueRecovery.DeliveryFreesRecovery | packages/adapters/src/durable-model-jobs.ts:146-165 | One delivery of an expired job that is still calling, by whomever, is enough for the recovery to recognise it |
| QueueRecovery.TransactionRecovers | scripts/fix01/queue-recovery.py:66-72 | On unchanged records the transaction is the recovery of the whole queue and writes exactly the rows of the intent |
| QueueRecovery.ReadbackProvesRecovery | scripts/fix01/queue-recovery.py:74-75 | Whoever sees the control record as prepared and later as wanted knows the whole recovery took effect once, with no other change in between |
| QueueRecovery.ReadRows | scripts/fix01/queue-recovery.py:67-74 | Rows read one by one among other participants: agreement means each was really seen so |
| QueueRecovery.ApplyIntent | scripts/fix01/queue-recovery.py:63-76 | Sends at most one transaction, none without the backup; PASS means that, against any concurrent writer and a lost acknowledgement, the recovery took effect in one step, every row was seen as wanted, and the totals were those of the intent before the send and at the end, so that nothing was reserved in between. With nobody interfering it passes if and only if the backup and the authority are there and records and totals are as prepared |
| DeliveryId.StableDeliveryId | apps/api/src/durable-enqueue.ts:13-18 | Two digests get the same identifier text if and only if they agree on the 122 kept bits; the text is always five groups of lower-case hexadecimal digits with the version and variant digits in place |
| DeliveryId.InjectiveOnKeptBits | apps/api/src/durable-enqueue.ts:15-15 | The same for the bytes |
| DeliveryId.Version4Exactly | apps/api/src/durable-enqueue.ts:15-15 | The result is always of version 4, and the version-4 byte strings are exactly those that stamping leaves alone |
| DeliveryId.BytewiseIsNumeric | scripts/fix01/queue-recovery.py:45-46 | Setting the fields byte by byte equals setting them on the 128-bit number |
| DeliveryId.TextInjective | apps/api/src/durable-enqueue.ts:16-17 | The text form tells different identifiers apart |
| DurableEnqueue.OneJobId | apps/api/src/durable-enqueue.ts:42-79 | Under any interleaving all receipts for one expected context name the same job, record and authority |
| DurableEnqueue.ReceiptsAreBacked | apps/api/src/durable-enqueue.ts:53-68 | A receipt rests on the kernel record of exactly the next control version and on a live, unexpired durable job that matches it field by field and was really there |
| DurableEnqueue.AtMostOnce | apps/api/src/durable-enqueue.ts:42-77 | Each request sends at most one begin and one enqueue; begins take effect under different control versions; all requests together create at most one durable job |
| DurableEnqueue.BeginUnderExpected | packages/application/src/known-enough.ts:719-735 | A begin that takes effect does so under the version the request expects next if and only if the record still has the expected version when it is applied; otherwise, or in another context, the request is refused |
| DurableEnqueue.OvertakenBeginIsRefused | apps/api/src/partition-http.ts:455-462 | For every expected context, a run in which the request starts a kernel job for a later version and is then refused |
| DurableEnqueue.LostBeginResolves | apps/api/src/durable-enqueue.ts:44-52 | A begin that took effect is picked up whether or not it was acknowledged |
| DurableEnqueue.LostEnqueueResolves | apps/api/src/durable-enqueue.ts:72-79 | So is an enqueue: it yields its receipt |
| DurableEnqueue.InspectExactly | apps/api/src/durable-enqueue.ts:29-43 | On its first read a request goes on exactly if the record is found in the expected context and the queue admits it: with a kernel job that is underway, or to begin one under the expected version |
| DurableEnqueue.BegunIsServed | apps/api/src/durable-enqueue.ts:42-68 | A request that finds the kernel job begun begins nothing; it is served from the durable job exactly if that matches, is alive and has not expired, and goes on to enqueue it exactly if it is missing |
| DurableEnqueue.UndisturbedIsServed | apps/api/src/durable-enqueue.ts:29-79 | Undisturbed, a request that comes first or again is served unless the durable job is there and cannot be receipted |
| DurableEnqueue.ServedAgain | apps/api/src/durable-enqueue.ts:42-68 | Once a request is served, every later one is served with the same job, and begins and enqueues nothing, while the kernel record stands and the durable job lives |
| DurableEnqueue.RepeatedIsServed | apps/api/src/durable-enqueue.ts:29-79 | Of two requests in sequence both are served with the same job, and the second sends nothing |
| EnqueuedJobs.ReceiptIsForQueuedJob | apps/api/src/durable-enqueue.ts:53-79 | On top of the job protocol, with workers, releases and recoveries at work: a receipt is for a protocol record as it was at some moment, when the job was in the queue or had succeeded |
| EnqueuedJobs.OneCallPerContext | apps/api/src/durable-enqueue.ts:42-79 | All the enqueue requests for one expected context together cause at most one provider call |
| DurableEnqueue.Bridge.Handle | apps/api/src/durable-enqueue.ts:29-79 | The whole request, with anybody acting between any two of its steps: it ends with a backed receipt or refused, after at most one begin and one enqueue, and sends nothing if it is not admitted; with nobody interfering it is served exactly as UndisturbedIsServed says |
| DurableEnqueue.Bridge.BeginReasoning | apps/api/src/durable-enqueue.ts:42-52 | Sends exactly one begin, resolves a lost or lost-race one by reading, and reads again |
| DurableEnqueue.Bridge.Settle | apps/api/src/durable-enqueue.ts:56-79 | Looks the durable job up, enqueues it exactly once if it is missing and not at all otherwise, and gives a receipt only for what it read; with nobody interfering, exactly if the job was missing or can be receipted |
| InstallState.Folder.Save | scripts/operations/cloudshell-create.py:134-155 | Never overwrites; the run may end with nothing, a torn file or the whole file written |
| InstallState.IntentChain | scripts/operations/cloudshell-create.py:295-352 | In every state an execute intent, whole or torn, implies the review record of the same plan with its own hash, which implies the create intent and the plan |
| InstallState.IntentEndsIt | scripts/operations/cloudshell-create.py:249-265 | Once an intent is there, whole or torn, no later run sends that mutation again; after an execute intent no create either |
| InstallState.ExecutedAsApproved | scripts/operations/cloudshell-create.py:320-352 | At most one create and one execute over any number of runs; what is executed is the change set of a record that was on disk when an operator named its hash and, under a digest without collisions, of whatever body has that hash |
| InstallState.ApprovalIsUnique | scripts/operations/cloudshell-create.py:339-347 | Two approvals in the life of one folder are of the same record |
| ReviewedInstaller.Installer.Inspect | scripts/operations/cloudshell-create.py:295-318 | A change set is found ready only if one of three answers, all of which passed, showed it as available; undisturbed, it is then |
| ReviewedInstaller.Installer.Prepare | scripts/operations/cloudshell-create.py:249-265 | Recovers instead of preparing when an intent exists; otherwise sends at most one create, after its intent and after so many passed answers, and reports it only with the change set of the last passed answer on record |
| ReviewedInstaller.Installer.Review | scripts/operations/cloudshell-create.py:295-323 | Writes nothing but the review record, of this plan and with its own hash, and never replaces one; a record it writes or returns is of a change set that an answer of this very call showed as available, and every answer of the call passed. Undisturbed, it succeeds on exactly that |
| ReviewedInstaller.Installer.Execute | scripts/operations/cloudshell-create.py:339-352 | Sends at most one execute, only for the record on disk that carries the named hash, and only if answers read in this run showed its change set as available and every check passed; undisturbed, it sends it |
| ReviewedInstaller.Installer.ExecutionIntent | scripts/operations/cloudshell-create.py:329-337 | Finds the record if and only if intent and review say the same, in full, about this plan |
| ReviewedInstaller.Installer.Resume | scripts/operations/partition-create.py:235-245 | Sends nothing; each outcome rests on what the last answers showed, a review hash it returns is that of the record on disk, and undisturbed the outcome is exactly that of the state shown |
| ReviewedInstaller.RunCommand | scripts/operations/partition-create.py:89-98 | A run on a folder bound to another plan changes nothing that matters; any run does only what is permitted, and records and executes only what its own answers showed as available |
| ReviewedInstaller.Lifetime | scripts/operations/partition-create.py:135-245 | Any commands in any order, each run ending anywhere, make a lawful history with at most one create and one execute; the record on disk and what was executed are of change sets that were seen to be available |
| AccessInstaller.Installation.Run | scripts/operations/access-install.py:196-254 | One run sends at most one create and one execute, and none of a kind whose intent was already there; a create only with no stack there, either only after every check of this run has passed and both roles looked exactly as on record; undisturbed, it goes through |
| AccessInstaller.Installation.Baselines | scripts/operations/access-install.py:143-168 | Both roles as they look now are as they were first seen; an unknown role is put on record, except once the stack is installed |
| AccessInstaller.Lifetime | scripts/operations/access-install.py:196-254 | Any number of runs with any sources make a lawful history |
| AccessInstaller.IntentsBind | scripts/operations/access-install.py:204-254 | Over any number of runs: at most one of each mutation, none after its intent, and what is executed is the change set created under the name of the one preview intent, with that intent's token and from the same source |
| CatalogGuidance.PreviewAll | apps/api/src/durable-model-worker.ts:74-85 | Previewing in batches of sixteen gives every candidate the verdict it gets on its own under its own position |
| CatalogGuidance.Guide | apps/api/src/durable-model-worker.ts:64-90 | Refuses exactly an empty, oversized, unfitting or private catalogue; exhausted exactly when the complete catalogue is invalid throughout |
| CatalogGuidance.Invoke | apps/api/src/durable-model-worker.ts:128-141 | The model is skipped exactly when the complete catalogue is invalid throughout; otherwise it is shown aligned lists cut by one choice of positions |
| CatalogGuidance.ChosenIsUnique | apps/api/src/durable-model-worker.ts:134-135 | The choice of positions is forced: in order, exactly those VALID or NEEDS_PERMISSION, or all of them when there are none |
| CatalogGuidance.SelectableAt | apps/api/src/durable-model-worker.ts:134-134 | A position is eligible exactly when its status allows choosing it |
| EnumCatalog.EveryAssignmentOnce | scripts/live-qa/kernel-diagnostics.ts:28-32 | The variants are every full assignment exactly once, and their number is the product of the option counts |
| EnumCatalog.CountVariants | scripts/live-qa/kernel-diagnostics.ts:26-27 | Gives up if and only if some partial product is over sixteen, and then the whole product is over sixteen or zero; a count it returns is the product |
| EnumCatalog.BuildVariants | scripts/live-qa/kernel-diagnostics.ts:28-32 | Builds exactly those variants |
| EnumCatalog.HiddenExactly | scripts/live-qa/kernel-diagnostics.ts:21-25 | What of the candidate stays fixed is exactly what it says of variables that are there and not shown |
| EnumCatalog.Evaluate | scripts/live-qa/kernel-diagnostics.ts:21-43 | Counts are returned if and only if the frame is a bounded public enumeration and every variant gets a known status; each count is the number of variants with that status and they add up to all of them |
| Questions.Sandbox.Ask | apps/api/src/durable-model-worker.ts:184-188 | A question is committed only under the exact control version it expects, which it uses up |
| Questions.AskAll | apps/api/src/durable-model-worker.ts:170-190 | Accepts exactly the fitting outputs, and then the k-th question was asked under the base version plus 1 plus k |
| Questions.AcceptedExactly | apps/api/src/durable-model-worker.ts:171-190 | An output is accepted if and only if its intents are the pending targets in some order, each once and with a valid adjustment |
| Questions.AcceptedIsPermutation | apps/api/src/durable-model-worker.ts:174-190 | Distinct identities and equal numbers force a permutation of the targets |
| Questions.IdentityInjective | apps/api/src/durable-model-worker.ts:179-179 | Identity strings joined by slashes are injective on identifiers without slashes |
| RequestSlots.Gate.Arrive | apps/api/src/partition-http.ts:166-178 | Admits exactly when both counters have room, and takes one of each |
| RequestSlots.Gate.Start | apps/api/src/partition-http.ts:126-134 | A later provider call starts exactly when its counter has room |
| RequestSlots.Gate.Settle | apps/api/src/partition-http.ts:175-176 | A late answer gives back the slot of its call only |
| RequestSlots.Gate.Finish | apps/api/src/partition-http.ts:531-533 | The end of a request gives back its own slot only |
| RequestSlots.Serve | apps/api/src/partition-http.ts:126-533 | Over every interleaving the counters equal the unfinished admitted requests and the unanswered calls, between zero and the limit |
| RequestSlots.UnansweredKeepsItsSlot | apps/api/src/partition-http.ts:174-178 | A call keeps its slot until it is answered, whatever happens to its request |
| RequestSlots.UnansweredCallsShutTheDoor | apps/api/src/partition-http.ts:166-166 | While as many calls as the limit stay unanswered nothing is admitted, even if every request has ended |
| BoundedCapture.Pipe.Drain | scripts/operations/cloudshell-inventory.py:54-64 | One ready event: a captured prefix of at most the limit, the limit error exactly when more really arrived, and progress |
| BoundedCapture.Run | scripts/operations/cloudshell-inventory.py:37-72 | Ends for every order of chunks and every passing of time; both captures are prefixes within the limit, an exit code means both streams whole, and is an error exactly as asked, the limit error means one was really too long, a timeout that the time is over; with no time passing the limit error comes exactly for a stream that is too long |
| DirectLogin.DirectCognito.Login | apps/web/src/cognito-direct.ts:36-36 | Starts a generation without a session |
| DirectLogin.DirectCognito.Refresh | apps/web/src/cognito-direct.ts:42-42 | Begins an exchange of the current generation exactly when there is a session to refresh |
| DirectLogin.DirectCognito.Callback | apps/web/src/cognito-direct.ts:25-34 | Only a success of the current generation installs or returns a session, and it does; a callback of an earlier one can only reject |
| DirectLogin.DirectCognito.SignOut | apps/web/src/cognito-direct.ts:44-44 | Starts a generation without a session or user and leaves outstanding exchanges to reject |
| DirectLogin.VerdictExactly | apps/web/src/cognito-direct.ts:25-34 | What an answer makes of its promise: a session exactly for a usable success of the current generation, a question exactly for its challenge |
| DirectLogin.Play | apps/web/src/cognito-direct.ts:20-45 | Over every interleaving the held session was brought by an exchange of the current generation, and every returned session was returned in its exchange's own generation |
| ChoiceMerge.TopicMerged | apps/web/src/creation-options.ts:26-44 | A merged topic keeps every topic that had options, adds only new and mutually different texts, includes every suggestion that is not blank, stays within the bounds, and merges once |
| ChoiceMerge.TopicGoes | apps/web/src/creation-options.ts:26-44 | A topic is merged if and only if it has a name and options, there is room for it, it brings something new, and the result stays within the bounds |
| ChoiceMerge.TopicLands | apps/web/src/creation-options.ts:26-44 | Where it goes: to the first topic of that name and kind, else in place of the empty one the plan began with, else to the end |
| ChoiceMerge.AdditionsInOrder | apps/web/src/creation-options.ts:33-40 | The suggestions are added in their order |
| ChoiceMerge.OptionMerged | apps/web/src/creation-options.ts:59-76 | A merged option is added at the end of one topic of its kind, changes nothing else, and merges once |
| ChoiceMerge.OptionGoes | apps/web/src/creation-options.ts:59-76 | A lone option is merged if and only if it is neither blank nor too long, there is room for it, it is not there yet, and the result stays within the bounds |
| ChoiceMerge.OptionLands | apps/web/src/creation-options.ts:59-76 | Where it goes, which is the same but that a single unnamed topic of its kind takes it whatever it already offers |

## Left out

- The invitation inbox kept with an account, group snapshots, profiles and other read-only queries: they decide nothing modelled here.
- Parsing and bounds of request bodies, names and e-mail addresses, the lookup of a recipient by user name, and the byte size of the stored state.
- The first, read-only phase of drafting and the provider call between its phases; the last phase repeats every check.
- DecisionCreation.CreatedWithCurrentRoster: the deadline and feature switch of a creation are one flag, and every subject and participant identifier is taken to be well formed and active.
- DecisionCreation.RevisedWithCurrentRoster: the answers, permissions and proposals that a revision or a joining resets are not modelled, nor the version numbers inside a frame; a revision by a service principal is not, and every membership is active. A revision does not first include who has joined: the repository that revisions are written through does not do so (packages/adapters/src/partition-decision-repository.ts:274-316), and the one that does has no caller that revises.
- DecisionCreation.JoinedWithCurrentRoster: what else a decision transaction does is any change of standing, and its own authority checks are not modelled; the group found through the decision's directory entry is the one that answers for it.
- Sources, subjects and request keys inside a job reference are one comparable value; a foreign reference is refused before anything modelled here happens.
- JobProtocol.StepMachineKeeps: the contents of authority fences and effects joined with a job write are not modelled, only whether the write applies; a failure is known by its kind and the usage noted with it.
- DurableEnqueue.AtMostOnce: an aborted request simply takes no further step, and the different error codes of a refused request are one.
- QueueRecovery.PrepareIntent: how a reference is read and how identifiers are computed from it are functions the recovery is given, the standing authority is four verdicts, and the wire form of the rows is not modelled.
- QueueRecovery.ApplyIntent: the authority record, compared before the send and again by the transaction itself, is one verdict the recovery is given; the run and message counters of the totals, which no step of the job protocol touches, are given with it.
- The listing of a requester's open requests and the saved-draft answers that come before a job is looked at.
- ReviewedInstaller.Installer.Review: the individual checks of a remote answer are one verdict, and the request budget counts calls but not seconds.
- AccessInstaller.Installation.Run: the individual checks of roles, policies and previews are one verdict per read.
- The read-only inventory of the installers and the restriction of hosted runs to it.
- Questions.AskAll: a refusal of a question for a reason other than its control version counts as an invalid adjustment, and the candidate checks before the questions are not modelled.
- CatalogGuidance.Invoke: what the model answers is not modelled, nor the request-side completion of a proven empty catalogue, which repeats the exhaustion test.
- The classification of failed rules, which is a table lookup.
- RequestSlots.Serve: the bodies, routes and responses of requests; a timeout is an ending of the request.
- BoundedCapture.Run: killing the child's process group, and streams that never end.
- DirectLogin.Play: the provider library, its storage, and changing the selected user between exchanges; registration and password reset touch no session.
- ChoiceMerge.TopicMerged: Unicode normalisation and trimming are functions the merge is given; the local title suggestion is a fixed list of patterns and is not modelled.
- User interface, HTTP parsing, logging, fixed scenario data, and the one-shot diagnostic and permission scripts.
