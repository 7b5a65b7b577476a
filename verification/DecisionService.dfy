/** Creating and revising a decision, phase by phase, while anybody else acts between any two phases. */
module DecisionService {
  import opened Prelude
  import opened GroupState
  import opened GroupTransitions
  import opened GroupInvariant
  import opened GroupHistory
  import opened GroupRevocation
  import opened GroupService
  import opened DecisionRecord
  import opened DecisionCreation

  datatype Outcome = Refused | Ready(decision: Id, record: Record)

  /** What a reservation that goes through adds. */
  lemma ReservationAdds(env: Env, w: World, who: Id, id: Id, draftId: Id, revision: nat, enabled: bool)
    requires Reserve(env, w.groups, who, id, draftId, revision, enabled).Ok?
    ensures var attempt := Reserve(env, w.groups, who, id, draftId, revision, enabled).value.1;
            && attempt in StepWorld(env, w, Transact(ReserveE(who, id, draftId, revision, enabled))).attempts
            && attempt.groupId == id && attempt.draftId == draftId && attempt.revision == revision
            && attempt.creator == who
  {
  }

  /** What was created for an attempt says so, and has the attempt's frame and members as long as nothing changed it. */
  ghost predicate CreatedFor(w: World, a: Attempt) {
    a.decisionId in w.records && FromAttempt(w.records[a.decisionId], a)
  }

  lemma CreatedForStays(env: Env, before: World, after: World, a: Attempt)
    requires Later(env, before, after) && CreatedFor(before, a)
    ensures CreatedFor(after, a)
  {
    RecordLater(env, before, after, a.decisionId);
  }

  /** A lookup for an attempt finds nothing, or the attempt's own decision; it is never told anything else. */
  lemma ReplayIsOwn(env: Env, w: World, a: Attempt)
    requires Attained(env, w) && a in w.attempts
    ensures Lookup(w.records, a) == (if a.decisionId in w.records then Replayed(w.records[a.decisionId]) else Absent)
    ensures a.decisionId in w.records ==> CreatedFor(w, a)
  {
    AttainedOk(env, w);
    if a.decisionId in w.records { assert RecordOk(w.records, w.attempts, a.decisionId); }
  }

  lemma CreateWrites(env: Env, w: World, a: Attempt, admitted: bool)
    ensures a.decisionId !in w.records && a.decisionId in StepWorld(env, w, Create(a, admitted)).records ==>
              CreatedFor(StepWorld(env, w, Create(a, admitted)), a)
  {
  }

  /** The group store of an attained world is in order. */
  lemma AttainedStore(env: Env, w: World)
    requires Attained(env, w)
    ensures Injective(env) && WellFormed(env, w.groups)
  {
    AttainedOk(env, w);
  }

  function AnswerFor(w: World, a: Attempt): Outcome {
    if a.decisionId !in w.records || Authorize(w.groups, Participant(a.creator), a.decisionId).Err? then Refused
    else Ready(a.decisionId, w.records[a.decisionId])
  }

  /** The answer is the attempt's own decision as it is now, shown to its creator, who is authorised for it. */
  ghost predicate Answers(w: World, a: Attempt, r: Outcome) {
    && r.Ready? && r.decision == a.decisionId && CreatedFor(w, a) && r.record == w.records[r.decision]
    && Authorize(w.groups, Participant(a.creator), r.decision) == Ok(())
  }

  lemma AnswerFits(w: World, a: Attempt)
    requires CreatedFor(w, a)
    ensures AnswerFor(w, a).Ready? <==> Authorize(w.groups, Participant(a.creator), a.decisionId) == Ok(())
    ensures AnswerFor(w, a).Ready? ==> Answers(w, a, AnswerFor(w, a))
  {
  }

  /** What the organizer is shown before revising: the roster, and the decision's frame and control version. */
  datatype Preview = Preview(roster: Roster, frame: Frame, control: nat)

  /** In one write the decision was rebound to its group, on unchanged terms; an open one got exactly the members its
      group had at that moment, all of them approved, and what is recorded of a finished one stayed as it was. */
  ghost predicate RosterRevised(env: Env, before: World, after: World, who: Id, id: Id, decision: Id) {
    && decision in before.records && decision in after.records
    && var r, next, at := before.records[decision], after.records[decision], OrganizedGroup(before.groups, who, id);
       && at.Ok? && at.value < |after.groups.groups| && Current(after.groups.groups[at.value], decision)
       && var members := before.groups.groups[at.value].members;
          && r.creator == who && SameTerms(next.frame, r.frame)
          && (forall m :: m in members ==> IsApproved(before.groups.accounts, m))
          && if Finished(r) then next == r else HasMembers(next, Memberships(env, members)) && !Finished(next)
  }

  lemma RevisionIsOfRoster(env: Env, w: World, event: Event, expected: nat, frame: Frame)
    requires Attained(env, w) && Revises(env, w, event, expected, frame)
    requires SameTerms(frame, w.records[event.bound].frame)
    ensures RosterRevised(env, w, ReviseStep(env, w, event, expected, frame), event.who, event.id, event.bound)
  {
    var events :| AllAllowedWorld(env, events) && w == RunWorld(env, START, events);
    RevisedWithCurrentRoster(env, events, w, event, expected, frame);
    ReboundIsCurrent(w.groups, event.who, event.id, event.bound, event.previewVersion, event.rosterVersion,
                     event.roster);
  }

  // ----- what nobody disturbs goes through

  /** The draft's participants are the group's members, and it has created nothing yet, or its decision is bound and
      current. */
  ghost predicate Creatable(env: Env, s: State, i: nat, draftId: Id)
    requires i < |s.groups|
  {
    var g, found := s.groups[i], FindDraft(s.groups[i].drafts, draftId);
    && found.Some? && Matching(g.drafts[found.value].frame.participants, Memberships(env, g.members))
    && (g.drafts[found.value].created.Some? ==> Current(g, env.decisionId(g.id, draftId)))
  }

  function ReservedWorld(env: Env, w: World, who: Id, id: Id, draftId: Id, revision: nat, enabled: bool): World {
    StepWorld(env, w, Transact(ReserveE(who, id, draftId, revision, enabled)))
  }

  lemma ReservedWorldIs(env: Env, w: World, who: Id, id: Id, draftId: Id, revision: nat, enabled: bool)
    requires Reserve(env, w.groups, who, id, draftId, revision, enabled).Ok?
    ensures var pair := Reserve(env, w.groups, who, id, draftId, revision, enabled).value;
            ReservedWorld(env, w, who, id, draftId, revision, enabled)
            == w.(groups := pair.0, attempts := w.attempts + {pair.1})
  {
  }

  /** What a reservation leaves for its own creation: the fence is open, the memberships fit, and its creator is
      authorised for the decision. */
  lemma ReservationOpens(env: Env, s: State, who: Id, id: Id, draftId: Id, revision: nat, enabled: bool)
    requires Injective(env) && WellFormed(env, s) && Reserve(env, s, who, id, draftId, revision, enabled).Ok?
    requires Creatable(env, s, OrganizedGroup(s, who, id).value, draftId)
    ensures var pair := Reserve(env, s, who, id, draftId, revision, enabled).value;
            && CreationFence(pair.0, who, pair.1).Ok? && MembershipsFit(pair.1)
            && pair.1.decisionId == env.decisionId(id, draftId) && pair.1.creator == who
            && Authorize(pair.0, Participant(who), pair.1.decisionId) == Ok(())
  {
    var i := OrganizedGroup(s, who, id).value;
    var pair := Reserve(env, s, who, id, draftId, revision, enabled).value;
    ReserveKeeps(env, s, who, id, draftId, revision, enabled);
    ReservedIsCurrent(env, s, who, id, draftId, revision, enabled);
    CurrentOpens(env, pair.0, i, draftId, who, pair.1);
  }

  lemma CurrentOpens(env: Env, s: State, i: nat, draftId: Id, who: Id, a: Attempt)
    requires Injective(env) && WellFormed(env, s) && OrganizedGroup(s, who, a.groupId) == Ok(i)
    requires a.decisionId == env.decisionId(a.groupId, draftId) && Current(s.groups[i], a.decisionId)
    requires s.groups[i].version == a.groupVersion && a.members == Memberships(env, s.groups[i].members)
    requires forall m :: m in s.groups[i].members ==> IsApproved(s.accounts, m)
    requires a.draftId == draftId && exists k :: 0 <= k < |s.groups[i].drafts| && s.groups[i].drafts[k].id == draftId
                                                 && !s.groups[i].drafts[k].deleted
    ensures CreationFence(s, who, a).Ok? && Authorize(s, Participant(who), a.decisionId) == Ok(())
  {
    FenceOpens(env, s, i, who, a);
    DerivedAnswers(env, s, i, draftId);
    AuthorizeExactly(env, s, who, a.decisionId);
  }

  lemma ReservedIsCurrent(env: Env, s: State, who: Id, id: Id, draftId: Id, revision: nat, enabled: bool)
    requires WellFormed(env, s) && Reserve(env, s, who, id, draftId, revision, enabled).Ok?
    requires Creatable(env, s, OrganizedGroup(s, who, id).value, draftId)
    ensures var i := OrganizedGroup(s, who, id).value;
            var pair := Reserve(env, s, who, id, draftId, revision, enabled).value;
            var g, g', a := s.groups[i], pair.0.groups[i], pair.1;
            && |pair.0.groups| == |s.groups| && pair.0.accounts == s.accounts
            && OrganizedGroup(pair.0, who, id) == Ok(i) && Current(g', a.decisionId)
            && g'.version == a.groupVersion && g'.members == g.members && !g'.deleted && who in g'.members
            && a.members == Memberships(env, g.members) && MembershipsFit(a) && a.groupId == id && g'.id == id
            && (forall m :: m in g.members ==> IsApproved(s.accounts, m))
            && a.draftId == draftId && a.creator == who && a.decisionId == env.decisionId(id, draftId)
            && exists k :: 0 <= k < |g'.drafts| && g'.drafts[k].id == draftId && !g'.drafts[k].deleted
  {
    var i := OrganizedGroup(s, who, id).value;
    var g := s.groups[i];
    var pair := Reserve(env, s, who, id, draftId, revision, enabled).value;
    var k := FindDraft(g.drafts, draftId).value;
    assert DraftOk(env, g, g.drafts[k]) by { assert GroupOk(env, s.accounts, g); }
    ReservedLookup(s, who, id, i, pair.0.groups[i]);
    if g.drafts[k].created.None? { AppendedIsCurrent(g, env.decisionId(id, draftId)); }
    assert pair.0.groups[i].drafts[k].id == draftId;
    forall m | m in g.members ensures IsApproved(s.accounts, m) {
      var j :| 0 <= j < |g.members| && g.members[j] == m;
    }
    var j :| 0 <= j < |g.members| && g.members[j] == who;
    assert pair.1.members[j].subject == who;
  }

  lemma ReservedLookup(s: State, who: Id, id: Id, i: nat, g: Group)
    requires OrganizedGroup(s, who, id) == Ok(i) && g.id == s.groups[i].id && g.deleted == s.groups[i].deleted
    requires g.members == s.groups[i].members && g.organizer == s.groups[i].organizer
    ensures OrganizedGroup(Put(s, i, g), who, id) == Ok(i)
  {
    var next := Put(s, i, g);
    assert forall j :: 0 <= j < |s.groups| ==>
      next.groups[j].id == s.groups[j].id && next.groups[j].deleted == s.groups[j].deleted
      && next.groups[j].members == s.groups[j].members;
  }

  lemma FenceOpens(env: Env, s: State, i: nat, who: Id, a: Attempt)
    requires OrganizedGroup(s, who, a.groupId) == Ok(i) && Current(s.groups[i], a.decisionId)
    requires s.groups[i].version == a.groupVersion && a.members == Memberships(env, s.groups[i].members)
    requires forall m :: m in s.groups[i].members ==> IsApproved(s.accounts, m)
    requires exists k :: 0 <= k < |s.groups[i].drafts| && s.groups[i].drafts[k].id == a.draftId
                         && !s.groups[i].drafts[k].deleted
    ensures CreationFence(s, who, a).Ok?
  {
    var k := FindBinding(s.groups[i].decisions, a.decisionId).value;
    assert s.groups[i].decisions[k].id == a.decisionId && !s.groups[i].decisions[k].deleted;
    forall j | 0 <= j < |a.members|
      ensures a.members[j].subject in s.groups[i].members && IsApproved(s.accounts, a.members[j].subject)
    {
      assert a.members[j].subject == s.groups[i].members[j];
    }
  }

  /** What an undisturbed creation comes to, if the decision service admits it or not. */
  function Undisturbed(w: World, a: Attempt, admitted: bool): Outcome {
    if CreationFence(w.groups, a.creator, a).Ok? then AnswerFor(CreateStep(w, a, admitted), a) else Refused
  }

  /** It shows the creator the decision that was there already, or the new one: open, with the draft's frame and the
      group's members. */
  lemma UndisturbedIsReady(env: Env, w: World, who: Id, id: Id, draftId: Id, revision: nat, enabled: bool)
    requires Attained(env, w) && Reserve(env, w.groups, who, id, draftId, revision, enabled).Ok?
    requires Creatable(env, w.groups, OrganizedGroup(w.groups, who, id).value, draftId)
    ensures var a := Reserve(env, w.groups, who, id, draftId, revision, enabled).value.1;
            var g := w.groups.groups[OrganizedGroup(w.groups, who, id).value];
            var r := Undisturbed(ReservedWorld(env, w, who, id, draftId, revision, enabled), a, true);
            && r.Ready? && r.decision == env.decisionId(id, draftId)
            && if r.decision in w.records then r.record == w.records[r.decision]
               else r.record.frame == g.drafts[FindDraft(g.drafts, draftId).value].frame
                    && r.record.memberships == Memberships(env, g.members) && r.record.creator == who
                    && r.record.standing == Open && r.record.control == 0
  {
    AttainedOk(env, w);
    var a := Reserve(env, w.groups, who, id, draftId, revision, enabled).value.1;
    ReservedWorldIs(env, w, who, id, draftId, revision, enabled);
    ReservationOpens(env, w.groups, who, id, draftId, revision, enabled);
    CreatedNow(ReservedWorld(env, w, who, id, draftId, revision, enabled), a);
    ReservedContent(env, w.groups, who, id, draftId, revision, enabled);
  }

  /** A creation that is not admitted shows its creator a decision that was there already, as it was, or nothing. */
  lemma UnadmittedCreatesNothing(w: World, a: Attempt)
    ensures Undisturbed(w, a, false).Ready? ==>
              a.decisionId in w.records && Undisturbed(w, a, false) == Ready(a.decisionId, w.records[a.decisionId])
              && CreationFence(w.groups, a.creator, a).Ok?
  {
  }

  lemma CreatedNow(w: World, a: Attempt)
    requires a in w.attempts && CreationFence(w.groups, a.creator, a).Ok? && MembershipsFit(a)
    requires Authorize(w.groups, Participant(a.creator), a.decisionId) == Ok(())
    ensures var r := Undisturbed(w, a, true);
            && r.Ready? && r.decision == a.decisionId
            && if a.decisionId in w.records then r.record == w.records[a.decisionId]
               else r.record.frame == a.frame && r.record.memberships == a.members && r.record.creator == a.creator
                    && r.record.standing == Open && r.record.control == 0
  {
  }

  lemma ReservedContent(env: Env, s: State, who: Id, id: Id, draftId: Id, revision: nat, enabled: bool)
    requires Reserve(env, s, who, id, draftId, revision, enabled).Ok?
    ensures var a := Reserve(env, s, who, id, draftId, revision, enabled).value.1;
            var g := s.groups[OrganizedGroup(s, who, id).value];
            FindDraft(g.drafts, draftId).Some? && a.frame == g.drafts[FindDraft(g.drafts, draftId).value].frame
            && a.members == Memberships(env, g.members)
  {
  }

  /** The decision is bound, undeleted, by the organizer's own group, which answers for it; all members of that group
      are approved and have different public identifiers; and the record is as the organizer has seen it. */
  ghost predicate Revisable(env: Env, w: World, who: Id, id: Id, decision: Id, control: nat, groupVersion: nat) {
    && OrganizedGroup(w.groups, who, id).Ok?
    && var i := OrganizedGroup(w.groups, who, id).value;
       var g := w.groups.groups[i];
       && g.version == groupVersion && (forall m :: m in g.members ==> IsApproved(w.groups.accounts, m))
       && Distinct(ParticipantIds(Memberships(env, g.members)))
       && BindingGroup(w.groups, decision) == Some(i)
       && !g.decisions[FindBinding(g.decisions, decision).value].deleted
       && decision in w.records && w.records[decision].creator == who && w.records[decision].control == control
  }

  /** The revision that an organizer makes of what is there, on the group's present roster. */
  function RosterEvent(w: World, who: Id, id: Id, decision: Id): Event
    requires OrganizedGroup(w.groups, who, id).Ok?
  {
    var g := w.groups.groups[OrganizedGroup(w.groups, who, id).value];
    RebindE(who, id, decision, g.version, g.version, g.members)
  }

  function RosterFrame(env: Env, w: World, who: Id, id: Id, decision: Id): Frame
    requires OrganizedGroup(w.groups, who, id).Ok? && decision in w.records
  {
    var g := w.groups.groups[OrganizedGroup(w.groups, who, id).value];
    w.records[decision].frame.(participants := ParticipantIds(Memberships(env, g.members)))
  }

  /** A change of people alone is always possible for members with different identifiers. */
  lemma PeopleRevise(env: Env, r: Record, members: seq<Id>)
    requires Sound(r) && Distinct(members) && Distinct(ParticipantIds(Memberships(env, members)))
    ensures var people := Memberships(env, members);
            ReviseRecord(r, r.frame.(participants := ParticipantIds(people)), people).Some?
  {
    var people := Memberships(env, members);
    var subjects := Subjects(people);
    forall i, j | 0 <= i < j < |subjects| ensures subjects[i] != subjects[j] {
      assert subjects[i] == members[i] && subjects[j] == members[j];
    }
    forall k | 0 <= k < |people| ensures ParticipantIds(people)[k] in ParticipantIds(people) {}
  }

  lemma RosterShownToOrganizer(s: State, who: Id, id: Id)
    requires OrganizedGroup(s, who, id).Ok?
    requires forall m :: m in s.groups[OrganizedGroup(s, who, id).value].members ==> IsApproved(s.accounts, m)
    ensures var g := s.groups[OrganizedGroup(s, who, id).value];
            RosterOf(s, who, id) == Some(Roster(id, g.version, g.members))
  {
  }

  /** The organizer is shown the roster and is a member. */
  lemma RevisableShown(env: Env, w: World, who: Id, id: Id, decision: Id, control: nat, groupVersion: nat)
    requires Attained(env, w) && Revisable(env, w, who, id, decision, control, groupVersion)
    ensures var g := w.groups.groups[OrganizedGroup(w.groups, who, id).value];
            RosterOf(w.groups, who, id) == Some(Roster(id, g.version, g.members)) && IsMember(w.records[decision], who)
            && Sound(w.records[decision]) && WellFormed(env, w.groups) && Distinct(g.members)
  {
    AttainedOk(env, w);
    assert RecordOk(w.records, w.attempts, decision);
    var g := w.groups.groups[OrganizedGroup(w.groups, who, id).value];
    assert Distinct(g.members) by { assert GroupOk(env, w.groups.accounts, g); }
    RosterShownToOrganizer(w.groups, who, id);
  }

  lemma RevisableGoes(env: Env, w: World, who: Id, id: Id, decision: Id, control: nat, groupVersion: nat)
    requires Attained(env, w) && Revisable(env, w, who, id, decision, control, groupVersion)
    ensures var read := RosterStep(w, who, id);
            var event, frame := RosterEvent(w, who, id, decision), RosterFrame(env, w, who, id, decision);
            && Revises(env, read, event, control, frame)
            && Authorize(ReviseStep(env, read, event, control, frame).groups, Participant(who), decision) == Ok(())
  {
    var g := w.groups.groups[OrganizedGroup(w.groups, who, id).value];
    RevisableShown(env, w, who, id, decision, control, groupVersion);
    PeopleRevise(env, w.records[decision], g.members);
    RebindGoes(w.groups, who, id, decision);
    var read := RosterStep(w, who, id);
    var event, frame := RosterEvent(w, who, id, decision), RosterFrame(env, w, who, id, decision);
    RevisesExactly(env, read, event, control, frame);
    RebindRestores(env, w.groups, who, id, decision, g.version, g.version, g.members, who);
    RebindAuthorizes(env, read, event, control, frame);
  }

  lemma RebindAuthorizes(env: Env, w: World, event: Event, control: nat, frame: Frame)
    requires Revises(env, w, event, control, frame)
    requires Rebind(w.groups, event.who, event.id, event.bound, event.previewVersion, event.rosterVersion,
                    event.roster).Ok?
    requires Authorize(Rebind(w.groups, event.who, event.id, event.bound, event.previewVersion, event.rosterVersion,
                              event.roster).value, Participant(event.who), event.bound).Ok?
    ensures Authorize(ReviseStep(env, w, event, control, frame).groups, Participant(event.who), event.bound) == Ok(())
  {
  }

  lemma RebindGoes(s: State, who: Id, id: Id, decision: Id)
    requires OrganizedGroup(s, who, id).Ok?
    requires var g := s.groups[OrganizedGroup(s, who, id).value];
             && (forall m :: m in g.members ==> IsApproved(s.accounts, m))
             && Binds(g, decision) && !g.decisions[FindBinding(g.decisions, decision).value].deleted
    ensures var g := s.groups[OrganizedGroup(s, who, id).value];
            Rebind(s, who, id, decision, g.version, g.version, g.members).Ok?
  {
  }

  /** Why a creation did not go through under the fence. */
  datatype Finding = Found | Fenced | Told(replay: Replay) | Unwritten

  class DecisionDesk {
    const env: Env
    /** The identifiers that people bind by hand. */
    const manual: Id -> bool
    const store: GroupStore
    /** Nobody else acts, and every write is let through and acknowledged. */
    const quiet: bool
    var records: map<Id, Record>
    var attempts: set<Attempt>
    var rosters: set<Roster>

    constructor (env: Env, manual: Id -> bool, quiet: bool)
      requires Injective(env) && forall d :: manual(d) ==> !Derived(env, d)
      ensures this.env == env && this.manual == manual && this.quiet == quiet && fresh(store)
      ensures World() == START && Valid()
    {
      this.env, this.manual, this.quiet := env, manual, quiet;
      store := new GroupStore(env);
      records, attempts, rosters := map[], {}, {};
      LaterNow(env, START);
    }

    function World(): DecisionCreation.World
      reads this, store
    {
      DecisionCreation.World(store.Stored(), records, attempts, rosters)
    }

    /** The stored state is one that some run of allowed events makes. */
    ghost predicate Valid()
      reads this, store
    {
      store.env == env && (forall d :: manual(d) ==> !Derived(env, d)) && Attained(env, World())
    }

    predicate Permits(e: WorldEvent) {
      e.Transact? || e.Revise? ==> (e.event.BindDecisionE? ==> manual(e.event.bound))
    }

    // ----- one step on the stored state

    method TakeTransaction(event: Event)
      requires store.Valid() && store.env == env && Allowed(env, event)
      modifies this, store
      ensures World() == TransactStep(env, old(World()), event)
    {
      if event.RebindE? { return; }
      if event.ReserveE? {
        var reserved := store.Reserve(event.who, event.id, event.draftId, event.revision, event.enabled);
        if reserved.Ok? { attempts := attempts + {reserved.value}; }
      } else {
        var _ := store.Transact(event);
      }
    }

    method TakeRoster(who: Id, id: Id)
      modifies this`rosters
      ensures World() == RosterStep(old(World()), who, id)
    {
      var read := RosterOf(store.Stored(), who, id);
      if read.Some? { rosters := rosters + {read.value}; }
    }

    method TakeCreation(a: Attempt, admitted: bool)
      modifies this`records
      ensures World() == CreateStep(old(World()), a, admitted)
    {
      if a !in attempts || !admitted || CreationFence(store.Stored(), a.creator, a).Err? { return; }
      if !MembershipsFit(a) || a.decisionId in records { return; }
      records := records[a.decisionId := CreatedRecord(a)];
    }

    /** The decision is revised and rebound in one write. */
    method TakeRevision(event: Event, expected: nat, frame: Frame)
      requires store.Valid() && store.env == env
      modifies this`records, store
      ensures World() == ReviseStep(env, old(World()), event, expected, frame)
    {
      if !event.RebindE? { return; }
      RevisesExactly(env, World(), event, expected, frame);
      if Roster(event.id, event.rosterVersion, event.roster) !in rosters { return; }
      if event.bound !in records { return; }
      var prior := records[event.bound];
      if prior.creator != event.who || !IsMember(prior, event.who) || prior.control != expected { return; }
      var next := ReviseRecord(prior, frame, Memberships(env, event.roster));
      if next.None? { return; }
      var bound := store.Rebind(event.who, event.id, event.bound, event.previewVersion, event.rosterVersion,
                                event.roster);
      if bound.Ok? { records := records[event.bound := next.value]; }
    }

    /** Those who have joined are included, if at all, in the same write as the command's own work. */
    method TakeCommand(who: Id, decision: Id, joins: bool, outcome: Option<Standing>)
      modifies this`records
      ensures World() == CommandStep(env, old(World()), who, decision, joins, outcome)
    {
      if decision !in records { return; }
      var r := records[decision];
      if joins {
        var included := WithJoined(env, World(), who, decision);
        if included.None? { return; }
        r := included.value;
      }
      if outcome.Some? { r := r.(standing := outcome.value, control := r.control + 1); }
      records := records[decision := r];
    }

    method Perform(e: WorldEvent)
      requires store.Valid() && store.env == env && AllowedWorld(env, e)
      modifies this, store
      ensures World() == StepWorld(env, old(World()), e)
    {
      match e
      case Transact(event) => TakeTransaction(event);
      case ReadRoster(who, id) => TakeRoster(who, id);
      case Create(a, admitted) => TakeCreation(a, admitted);
      case Revise(event, expected, frame) => TakeRevision(event, expected, frame);
      case Command(who, decision, joins, outcome) => TakeCommand(who, decision, joins, outcome);
    }

    method Take(e: WorldEvent)
      requires Valid() && Permits(e)
      modifies this, store
      ensures Valid() && World() == StepWorld(env, old(World()), e) && Later(env, old(World()), World())
    {
      ghost var before := World();
      AttainedStore(env, before);
      Perform(e);
      LaterStep(env, before, e);
      AttainedLater(env, before, World());
    }

    method Others()
      requires Valid()
      modifies this, store
      ensures Valid() && Later(env, old(World()), World())
      ensures quiet ==> World() == old(World())
    {
      var events: seq<WorldEvent> := *;
      if quiet { events := []; }
      ghost var start := World();
      LaterNow(env, start);
      for k := 0 to |events|
        invariant Valid() && Later(env, start, World())
        invariant quiet ==> World() == start
      {
        ghost var before := World();
        if Permits(events[k]) {
          Take(events[k]);
          LaterAgain(env, start, before, World());
        }
      }
    }

    // ----- creation

    /** The exact draft is locked and its decision bound before anything is created. */
    method ReserveDraft(who: Id, id: Id, draftId: Id, revision: nat, enabled: bool) returns (r: Option<Attempt>)
      requires Valid()
      modifies this, store
      ensures Valid() && Later(env, old(World()), World())
      ensures r.None? <==> Reserve(env, old(store.Stored()), who, id, draftId, revision, enabled).Err?
      ensures r.None? ==> World() == old(World())
      ensures r.Some? ==> r.value in attempts && r.value.groupId == id && r.value.draftId == draftId
                          && r.value.revision == revision && r.value.creator == who
      ensures r.Some? ==>
                && World() == ReservedWorld(env, old(World()), who, id, draftId, revision, enabled)
                && r.value == Reserve(env, old(store.Stored()), who, id, draftId, revision, enabled).value.1
    {
      var reserved := Reserve(env, store.Stored(), who, id, draftId, revision, enabled);
      LaterNow(env, World());
      if reserved.Err? { return None; }
      ReservationAdds(env, World(), who, id, draftId, revision, enabled);
      Take(Transact(ReserveE(who, id, draftId, revision, enabled)));
      return Some(reserved.value.1);
    }

    /** The decision is written once; a write that finds it there, or whose acknowledgement is lost, is resolved
        by looking it up. */
    method WriteDecision(attempt: Attempt, admitted: bool) returns (ok: bool)
      requires Valid() && attempt in attempts
      modifies this, store
      ensures Valid() && Later(env, old(World()), World()) && attempt in attempts
      ensures ok ==> CreatedFor(World(), attempt)
      ensures !ok ==> Lookup(records, attempt) == Absent
      ensures quiet ==>
                World() == CreateStep(old(World()), attempt, admitted)
                && (ok <==> attempt.decisionId in records)
    {
      ghost var start := World();
      var acked: bool := *;
      if quiet { acked := true; }
      var absent := attempt.decisionId !in records;
      CreateWrites(env, start, attempt, admitted);
      Take(Create(attempt, admitted));
      LaterRemembers(env, start, World());
      if absent && attempt.decisionId in records && acked { return true; }
      ghost var sent := World();
      Others();
      LaterAgain(env, start, sent, World());
      LaterRemembers(env, start, World());
      ReplayIsOwn(env, World(), attempt);
      return Lookup(records, attempt).Replayed?;
    }

    /** Under the fence: a decision that is there already is the attempt's own; otherwise it is written. Nobody is ever
        told of a conflict, of another creator, or that the creator is no member. */
    method FindOrWrite(attempt: Attempt, admitted: bool) returns (r: Finding)
      requires Valid() && attempt in attempts
      modifies this, store
      ensures Valid() && Later(env, old(World()), World()) && attempt in attempts
      ensures !r.Told?
      ensures r.Found? ==> CreatedFor(World(), attempt)
      ensures r.Fenced? <==> CreationFence(old(store.Stored()), attempt.creator, attempt).Err?
      ensures r.Unwritten? ==> Lookup(records, attempt) == Absent
      ensures quiet && !r.Fenced? ==>
                World() == CreateStep(old(World()), attempt, admitted) && (r.Found? <==> attempt.decisionId in records)
      ensures quiet && r.Fenced? ==> World() == old(World())
    {
      ghost var start := World();
      LaterNow(env, start);
      if CreationFence(store.Stored(), attempt.creator, attempt).Err? { return Fenced; }
      Others();
      LaterRemembers(env, start, World());
      ReplayIsOwn(env, World(), attempt);
      var replay := Lookup(records, attempt);
      if replay.Replayed? { return Found; }
      if !replay.Absent? { return Told(replay); }
      ghost var sought := World();
      var ok := WriteAmidst(attempt, admitted);
      LaterAgain(env, start, sought, World());
      return if ok then Found else Unwritten;
    }

    method WriteAmidst(attempt: Attempt, admitted: bool) returns (ok: bool)
      requires Valid() && attempt in attempts
      modifies this, store
      ensures Valid() && Later(env, old(World()), World()) && attempt in attempts
      ensures ok ==> CreatedFor(World(), attempt)
      ensures !ok ==> Lookup(records, attempt) == Absent
      ensures quiet ==>
                World() == CreateStep(old(World()), attempt, admitted)
                && (ok <==> attempt.decisionId in records)
    {
      ghost var start := World();
      Others();
      ghost var before := World();
      LaterRemembers(env, start, before);
      ok := WriteDecision(attempt, admitted);
      LaterAgain(env, start, before, World());
    }

    /** Reserve, look for a replay under the fence, write if there is none, and answer only who is authorised. */
    method CreateDecision(who: Id, id: Id, draftId: Id, revision: nat, enabled: bool, admitted: bool)
      returns (r: Outcome, ghost attempt: Option<Attempt>)
      requires Valid()
      modifies this, store
      ensures Valid()
      ensures attempt.None? <==> Reserve(env, old(store.Stored()), who, id, draftId, revision, enabled).Err?
      ensures attempt.None? ==> r == Refused && World() == old(World())
      ensures attempt.Some? ==>
                attempt.value in attempts && attempt.value.groupId == id && attempt.value.draftId == draftId
                && attempt.value.revision == revision && attempt.value.creator == who
      ensures r.Ready? ==> attempt.Some? && Answers(World(), attempt.value, r)
      ensures quiet && attempt.Some? ==>
                r == Undisturbed(ReservedWorld(env, old(World()), who, id, draftId, revision, enabled), attempt.value,
                                 admitted)
    {
      var reserved := ReserveDraft(who, id, draftId, revision, enabled);
      if reserved.None? { return Refused, None; }
      r := Conclude(reserved.value, admitted);
      attempt := reserved;
    }

    /** Everything after the reservation; only who is authorised for the decision by then is shown it. */
    method Conclude(attempt: Attempt, admitted: bool) returns (r: Outcome)
      requires Valid() && attempt in attempts
      modifies this, store
      ensures Valid() && attempt in attempts
      ensures r.Ready? ==> Answers(World(), attempt, r)
      ensures quiet ==> r == Undisturbed(old(World()), attempt, admitted)
    {
      ghost var start := World();
      Others();
      LaterRemembers(env, start, World());
      var finding := FindOrWrite(attempt, admitted);
      if !finding.Found? { return Refused; }
      ghost var written := World();
      Others();
      LaterRemembers(env, written, World());
      CreatedForStays(env, written, World(), attempt);
      AnswerFits(World(), attempt);
      return AnswerFor(World(), attempt);
    }

    // ----- revision

    /** The roster is read first; the decision is then looked at under a fence on that roster's version. */
    method ReviewRoster(who: Id, id: Id, decision: Id) returns (preview: Option<Preview>)
      requires Valid()
      modifies this, store
      ensures Valid() && Later(env, old(World()), World())
      ensures preview.Some? ==>
                && preview.value.roster.groupId == id && decision in records
                && preview.value.frame == records[decision].frame && preview.value.control == records[decision].control
      ensures quiet ==> World() == old(World())
      ensures quiet && preview.Some? ==> RosterOf(store.Stored(), who, id) == Some(preview.value.roster)
      ensures forall control, version :: quiet && Revisable(env, old(World()), who, id, decision, control, version) ==>
                preview.Some? && preview.value.control == control && preview.value.roster.version == version
    {
      forall control, version | Revisable(env, World(), who, id, decision, control, version) {
        RevisableShown(env, World(), who, id, decision, control, version);
      }
      LaterNow(env, World());
      var roster := RosterOf(store.Stored(), who, id);
      if roster.None? { return None; }
      Others();
      var found := OrganizedGroup(store.Stored(), who, id);
      if found.Err? || store.groups[found.value].version != roster.value.version { return None; }
      var at := FindBinding(store.groups[found.value].decisions, decision);
      if at.None? || store.groups[found.value].decisions[at.value].deleted { return None; }
      if decision !in records || !IsMember(records[decision], who) { return None; }
      return Some(Preview(roster.value, records[decision].frame, records[decision].control));
    }

    /** The one write of a revision: refused, or applied and perhaps not acknowledged. */
    method WriteRevision(event: Event, expected: nat, frame: Frame)
      returns (ok: bool, ghost before: DecisionCreation.World)
      requires Valid() && event.RebindE?
      requires event.bound in records && expected == records[event.bound].control ==>
                 SameTerms(frame, records[event.bound].frame)
      modifies this, store
      ensures Valid() && before == old(World()) && Later(env, before, World())
      ensures ok ==> RosterRevised(env, before, World(), event.who, event.id, event.bound)
                     && before.records[event.bound].control == expected
      ensures quiet ==>
                World() == ReviseStep(env, before, event, expected, frame)
                && (ok <==> Revises(env, before, event, expected, frame))
    {
      before := World();
      var applied := Revises(env, World(), event, expected, frame);
      if applied { RevisionIsOfRoster(env, before, event, expected, frame); }
      Take(Revise(event, expected, frame));
      var acked: bool := *;
      if quiet { acked := true; }
      return applied && acked, before;
    }

    /** Review, compare with what the organizer has seen, read the roster again, and revise; anybody may act between any
        two of these. An answer means that a revision of exactly the decision that was seen took effect in one write. */
    method ReviseRoster(who: Id, id: Id, decision: Id, control: nat, groupVersion: nat)
      returns (r: Outcome, ghost before: DecisionCreation.World, ghost after: DecisionCreation.World)
      requires Valid()
      modifies this, store
      ensures Valid() && Later(env, old(World()), before) && Later(env, before, after) && Later(env, after, World())
      ensures r.Ready? ==>
                && RosterRevised(env, before, after, who, id, decision)
                && before.records[decision].control == control
                && r.decision == decision && decision in records && r.record == records[decision]
                && Authorize(store.Stored(), Participant(who), decision) == Ok(())
      ensures quiet && Revisable(env, old(World()), who, id, decision, control, groupVersion) ==> r.Ready?
    {
      ghost var start := World();
      if Revisable(env, start, who, id, decision, control, groupVersion) {
        RevisableShown(env, start, who, id, decision, control, groupVersion);
        RevisableGoes(env, start, who, id, decision, control, groupVersion);
      }
      var preview := ReviewRoster(who, id, decision);
      ghost var seen := World();
      LaterNow(env, seen);
      before, after := seen, seen;
      if preview.None? || control != preview.value.control || groupVersion != preview.value.roster.version {
        return Refused, before, after;
      }
      r, before, after := ReviseSeen(who, decision, preview.value);
      LaterAgain(env, start, seen, before);
    }

    /** The second half: the roster is read again, and the write is made for what was seen. */
    method ReviseSeen(who: Id, decision: Id, preview: Preview)
      returns (r: Outcome, ghost before: DecisionCreation.World, ghost after: DecisionCreation.World)
      requires Valid() && decision in records
      requires preview.frame == records[decision].frame && preview.control == records[decision].control
      modifies this, store
      ensures Valid() && Later(env, old(World()), before) && Later(env, before, after) && Later(env, after, World())
      ensures r.Ready? ==>
                && RosterRevised(env, before, after, who, preview.roster.groupId, decision)
                && before.records[decision].control == preview.control
                && r.decision == decision && decision in records && r.record == records[decision]
                && Authorize(store.Stored(), Participant(who), decision) == Ok(())
      ensures quiet && RosterOf(old(store.Stored()), who, preview.roster.groupId) == Some(preview.roster) ==>
                var event := RebindE(who, preview.roster.groupId, decision, preview.roster.version,
                                     preview.roster.version, preview.roster.members);
                var frame := preview.frame.(participants := ParticipantIds(Memberships(env, preview.roster.members)));
                var read := RosterStep(old(World()), who, preview.roster.groupId);
                r.Ready? <==>
                  Revises(env, read, event, preview.control, frame)
                  && Authorize(ReviseStep(env, read, event, preview.control, frame).groups, Participant(who), decision)
                     == Ok(())
    {
      ghost var seen := World();
      var roster := ReadAgain(who, preview.roster.groupId);
      before, after := World(), World();
      LaterNow(env, before);
      RecordLater(env, seen, before, decision);
      if roster.None? { return Refused, before, after; }
      var frame := preview.frame.(participants := ParticipantIds(Memberships(env, preview.roster.members)));
      var event := RebindE(who, preview.roster.groupId, decision, preview.roster.version, roster.value.version,
                           roster.value.members);
      var ok;
      ok, before := WriteRevision(event, preview.control, frame);
      after := World();
      LaterNow(env, after);
      if !ok { return Refused, before, after; }
      r := Publish(who, decision);
    }

    /** Only who is authorised for the decision by then is shown it. */
    method Publish(who: Id, decision: Id) returns (r: Outcome)
      requires Valid() && decision in records
      modifies this, store
      ensures Valid() && Later(env, old(World()), World())
      ensures r.Ready? ==>
                && r.decision == decision && decision in records && r.record == records[decision]
                && Authorize(store.Stored(), Participant(who), decision) == Ok(())
      ensures quiet ==> (r.Ready? <==> Authorize(old(store.Stored()), Participant(who), decision) == Ok(()))
    {
      ghost var before := World();
      Others();
      RecordLater(env, before, World(), decision);
      if Authorize(store.Stored(), Participant(who), decision).Err? { return Refused; }
      return Ready(decision, records[decision]);
    }

    method ReadAgain(who: Id, id: Id) returns (roster: Option<Roster>)
      requires Valid()
      modifies this, store
      ensures Valid() && Later(env, old(World()), World())
      ensures quiet ==>
                World() == RosterStep(old(World()), who, id) && roster == RosterOf(old(store.Stored()), who, id)
    {
      ghost var start := World();
      Others();
      ghost var read := World();
      roster := RosterOf(store.Stored(), who, id);
      Take(ReadRoster(who, id));
      LaterAgain(env, start, read, World());
      ghost var noted := World();
      Others();
      LaterAgain(env, start, noted, World());
    }
  }
}
