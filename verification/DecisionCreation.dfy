/** Creating a decision from a draft: reservation, fenced creation and replay, interleaved with everything else. */
module DecisionCreation {
  import opened Prelude
  import opened GroupState
  import opened GroupTransitions
  import opened GroupInvariant
  import opened GroupHistory
  import opened DecisionRecord

  /** A group's members as its organizer has read them, with the version they were read at. */
  datatype Roster = Roster(groupId: Id, version: nat, members: seq<Id>)

  /** The group state, the created decisions, and every attempt that has passed its reservation and every roster that
      has been read so far. */
  datatype World = World(groups: State, records: map<Id, Record>, attempts: set<Attempt>, rosters: set<Roster>)

  /** A command is any other decision transaction. It may first include those who have joined the group, and its own
      work may fail or change nothing, or leave the decision in any standing. */
  datatype WorldEvent =
    | Transact(event: Event)
    | ReadRoster(who: Id, id: Id)
    | Create(attempt: Attempt, admitted: bool)
    | Revise(event: Event, expected: nat, frame: Frame)
    | Command(who: Id, decision: Id, joins: bool, outcome: Option<Standing>)

  datatype Replay = Absent | Replayed(record: Record) | NotMember | NotCreator | Conflict

  /** The roster is shown to the organizer, and only while every member is approved. */
  function RosterOf(s: State, who: Id, id: Id): Option<Roster> {
    match OrganizedGroup(s, who, id)
    case Err(_) => None
    case Ok(i) =>
      var g := s.groups[i];
      if exists k :: 0 <= k < |g.members| && !IsApproved(s.accounts, g.members[k]) then None
      else Some(Roster(id, g.version, g.members))
  }

  function BodyOf(a: Attempt): Body {
    Body(a.groupId, a.draftId, a.revision, a.groupVersion, a.frame)
  }

  /** What a creation attempt is told about a decision that may exist already. */
  function Lookup(records: map<Id, Record>, a: Attempt): Replay {
    if a.decisionId !in records then Absent
    else if !IsMember(records[a.decisionId], a.creator) then NotMember
    else if records[a.decisionId].creator != a.creator then NotCreator
    else if records[a.decisionId].body != BodyOf(a) then Conflict
    else Replayed(records[a.decisionId])
  }

  /** The kernel's check of a new decision's memberships: they are its participants, each once, the creator among
      them. */
  predicate MembershipsFit(a: Attempt) {
    Matching(a.frame.participants, a.members) && exists k :: 0 <= k < |a.members| && a.members[k].subject == a.creator
  }

  function CreatedRecord(a: Attempt): Record {
    Record(BodyOf(a), a.creator, a.frame, a.members, Open, 0)
  }

  /** What a creation writes, if anything. */
  function CreateStep(w: World, a: Attempt, admitted: bool): World {
    if a in w.attempts && admitted && CreationFence(w.groups, a.creator, a).Ok? && MembershipsFit(a)
       && a.decisionId !in w.records
    then w.(records := w.records[a.decisionId := CreatedRecord(a)])
    else w
  }

  /** A revision by the creator of the record as it was seen, on a roster that was read; its fence rebinds the decision
      in the same write. */
  predicate Revises(env: Env, w: World, event: Event, expected: nat, frame: Frame) {
    && event.RebindE? && Roster(event.id, event.rosterVersion, event.roster) in w.rosters
    && event.bound in w.records && w.records[event.bound].creator == event.who
    && IsMember(w.records[event.bound], event.who) && w.records[event.bound].control == expected
    && Apply(env, w.groups, event).Ok?
    && ReviseRecord(w.records[event.bound], frame, Memberships(env, event.roster)).Some?
  }

  function RevisedRecord(env: Env, w: World, event: Event, expected: nat, frame: Frame): Record
    requires Revises(env, w, event, expected, frame)
  {
    ReviseRecord(w.records[event.bound], frame, Memberships(env, event.roster)).value
  }

  function ReviseStep(env: Env, w: World, event: Event, expected: nat, frame: Frame): World {
    if Revises(env, w, event, expected, frame)
    then w.(groups := Step(env, w.groups, event),
            records := w.records[event.bound := RevisedRecord(env, w, event, expected, frame)])
    else w
  }

  /** The members of the group that answers for the decision, shown to a member while its binding is current and every
      member approved. */
  function DecisionRoster(s: State, who: Id, decision: Id): Option<seq<Id>> {
    match BindingGroup(s, decision)
    case None => None
    case Some(i) =>
      var g := s.groups[i];
      if GroupOf(s, who, g.id).Err? || !Current(g, decision)
         || exists k :: 0 <= k < |g.members| && !IsApproved(s.accounts, g.members[k]) then None
      else Some(g.members)
  }

  /** The record with those who have joined, or nothing if the transaction is refused. */
  function WithJoined(env: Env, w: World, who: Id, decision: Id): Option<Record>
    requires decision in w.records
  {
    match DecisionRoster(w.groups, who, decision)
    case None => None
    case Some(members) =>
      var people := Memberships(env, members);
      IncludeMembers(w.records[decision], ParticipantIds(people), people)
  }

  function Concluded(r: Record, outcome: Option<Standing>): Record {
    match outcome
    case None => r
    case Some(standing) => r.(standing := standing, control := r.control + 1)
  }

  function CommandStep(env: Env, w: World, who: Id, decision: Id, joins: bool, outcome: Option<Standing>): World {
    if decision !in w.records then w
    else match if joins then WithJoined(env, w, who, decision) else Some(w.records[decision])
      case None => w
      case Some(r) => w.(records := w.records[decision := Concluded(r, outcome)])
  }

  /** Rebinding happens only in the same write as a revision; a reservation hands out its attempt. */
  function TransactStep(env: Env, w: World, event: Event): World {
    if event.RebindE? then w
    else
      var next := w.(groups := Step(env, w.groups, event));
      if event.ReserveE?
      then match Reserve(env, w.groups, event.who, event.id, event.draftId, event.revision, event.enabled)
           case Ok(pair) => next.(attempts := w.attempts + {pair.1})
           case Err(_) => next
      else next
  }

  function RosterStep(w: World, who: Id, id: Id): World {
    match RosterOf(w.groups, who, id)
    case Some(roster) => w.(rosters := w.rosters + {roster})
    case None => w
  }

  function StepWorld(env: Env, w: World, e: WorldEvent): World {
    match e
    case Transact(event) => TransactStep(env, w, event)
    case ReadRoster(who, id) => RosterStep(w, who, id)
    case Create(a, admitted) => CreateStep(w, a, admitted)
    case Revise(event, expected, frame) => ReviseStep(env, w, event, expected, frame)
    case Command(who, decision, joins, outcome) => CommandStep(env, w, who, decision, joins, outcome)
  }

  /** No event of the run binds a derived decision by hand. */
  ghost predicate AllAllowedWorld(env: Env, events: seq<WorldEvent>) {
    forall k :: 0 <= k < |events| ==> AllowedWorld(env, events[k])
  }

  /** The world that a run of allowed events makes out of nothing. */
  ghost predicate Reaches(env: Env, events: seq<WorldEvent>, w: World) {
    Injective(env) && AllAllowedWorld(env, events) && w == RunWorld(env, START, events)
  }

  function RunWorld(env: Env, w: World, events: seq<WorldEvent>): World
    decreases |events|
  {
    if events == [] then w else RunWorld(env, StepWorld(env, w, events[0]), events[1..])
  }

  const START: World := World(EMPTY, map[], {}, {})

  ghost predicate AllowedWorld(env: Env, e: WorldEvent) {
    e.Transact? || e.Revise? ==> Allowed(env, e.event)
  }

  /** The group and the draft still say what the attempt was given. */
  ghost predicate Backed(env: Env, g: Group, k: nat, a: Attempt) {
    && k < |g.drafts|
    && g.id == a.groupId && g.organizer == a.creator
    && a.decisionId == env.decisionId(a.groupId, a.draftId)
    && g.drafts[k].id == a.draftId && g.drafts[k].created == Some(a.decisionId)
    && g.drafts[k].frame == a.frame && g.drafts[k].revision == a.revision && g.drafts[k].groupVersion == a.groupVersion
    && a.groupVersion <= g.version
    && (g.version == a.groupVersion ==> a.members == Memberships(env, g.members))
  }

  ghost predicate AttemptOk(env: Env, s: State, a: Attempt) {
    exists i: nat, k: nat :: i < |s.groups| && Backed(env, s.groups[i], k, a)
  }

  /** Attempts for one decision carry the same content, members and creator. */
  ghost predicate AttemptsAgree(attempts: set<Attempt>) {
    forall a, b :: a in attempts && b in attempts && a.decisionId == b.decisionId ==> a == b
  }

  /** The members are the participants, each once, and the creator is one of them. */
  ghost predicate Sound(r: Record) {
    Enlists(r.frame.participants, r.memberships) && IsMember(r, r.creator)
  }

  /** The record says what it was created from, and as long as nothing has changed it, it is exactly that. */
  ghost predicate FromAttempt(r: Record, a: Attempt) {
    && r.body == Body(a.groupId, a.draftId, a.revision, a.groupVersion, a.frame) && r.creator == a.creator
    && (r.control == 0 ==> r.frame == a.frame && r.memberships == a.members && r.standing == Open)
  }

  /** The record was created from an attempt, and is sound. */
  ghost predicate RecordOk(records: map<Id, Record>, attempts: set<Attempt>, d: Id) {
    && d in records && Sound(records[d])
    && exists a :: a in attempts && a.decisionId == d && FromAttempt(records[d], a)
  }

  /** A roster that was read still is the group's, as long as the group's version is. */
  ghost predicate RosterOk(s: State, r: Roster) {
    exists i: nat :: i < |s.groups| && RosterFollows(s.groups[i], r)
  }

  ghost predicate RosterFollows(g: Group, r: Roster) {
    g.id == r.groupId && r.version <= g.version && (g.version == r.version ==> g.members == r.members)
  }

  ghost predicate RecordsOk(records: map<Id, Record>, attempts: set<Attempt>) {
    forall d :: d in records ==> RecordOk(records, attempts, d)
  }

  ghost predicate AttemptsOk(env: Env, s: State, attempts: set<Attempt>) {
    forall a :: a in attempts ==> AttemptOk(env, s, a)
  }

  ghost predicate RostersOk(s: State, rosters: set<Roster>) {
    forall r :: r in rosters ==> RosterOk(s, r)
  }

  ghost predicate WorldOk(env: Env, w: World) {
    && WellFormed(env, w.groups)
    && AttemptsOk(env, w.groups, w.attempts)
    && AttemptsAgree(w.attempts)
    && RecordsOk(w.records, w.attempts)
    && RostersOk(w.groups, w.rosters)
  }

  lemma BackedFollows(env: Env, e: Event, g: Group, g': Group, k: nat, a: Attempt)
    requires Evolves(env, e, g, g') && Backed(env, g, k, a)
    ensures Backed(env, g', k, a)
  {
    assert DraftFollows(g.drafts[k], g'.drafts[k]);
  }

  lemma AttemptsFollow(env: Env, s: State, e: Event, attempts: set<Attempt>)
    requires AttemptsOk(env, s, attempts)
    ensures AttemptsOk(env, Step(env, s, e), attempts)
  {
    EveryStepEvolves(env, s, e);
    var next := Step(env, s, e);
    forall a | a in attempts ensures AttemptOk(env, next, a) {
      var i: nat, k: nat :| i < |s.groups| && Backed(env, s.groups[i], k, a);
      assert Evolves(env, e, s.groups[i], next.groups[i]);
      BackedFollows(env, e, s.groups[i], next.groups[i], k, a);
    }
  }

  /** A novel reservation is backed by its own draft. */
  lemma ReservationBacked(env: Env, s: State, e: Event)
    requires e.ReserveE? && WellFormed(env, s) && Reserve(env, s, e.who, e.id, e.draftId, e.revision, e.enabled).Ok?
    ensures var i := OrganizedGroup(s, e.who, e.id).value;
            Backed(env, Step(env, s, e).groups[i], FindDraft(s.groups[i].drafts, e.draftId).value,
                   Reserve(env, s, e.who, e.id, e.draftId, e.revision, e.enabled).value.1)
  {
    var i := OrganizedGroup(s, e.who, e.id).value;
    var k := FindDraft(s.groups[i].drafts, e.draftId).value;
    assert DraftOk(env, s.groups[i], s.groups[i].drafts[k]);
  }

  lemma DraftsUnique(drafts: seq<Draft>, k: nat, l: nat)
    requires Pairwise(drafts, DifferentDrafts) && k < |drafts| && l < |drafts| && drafts[k].id == drafts[l].id
    ensures k == l
  {
    assert k < l ==> DifferentDrafts(drafts[k], drafts[l]);
    assert l < k ==> DifferentDrafts(drafts[l], drafts[k]);
  }

  /** Two attempts backed by one state for one decision, both at the group's version, are the same attempt. */
  lemma SameDecisionSameAttempt(env: Env, s: State, i: nat, k: nat, a: Attempt, b: Attempt)
    requires Injective(env) && WellFormed(env, s) && i < |s.groups| && Backed(env, s.groups[i], k, a)
    requires AttemptOk(env, s, b) && a.decisionId == b.decisionId && s.groups[i].version == a.groupVersion
    ensures a == b
  {
    var j: nat, l: nat :| j < |s.groups| && Backed(env, s.groups[j], l, b);
    assert a.groupId == b.groupId && a.draftId == b.draftId;
    if i != j { GroupsDiffer(env, s, i, j); }
    assert GroupOk(env, s.accounts, s.groups[i]);
    DraftsUnique(s.groups[i].drafts, k, l);
  }

  lemma NovelAgrees(env: Env, attempts: set<Attempt>, s: State, i: nat, k: nat, novel: Attempt)
    requires Injective(env) && WellFormed(env, s) && AttemptsAgree(attempts)
    requires forall a :: a in attempts ==> AttemptOk(env, s, a)
    requires i < |s.groups| && Backed(env, s.groups[i], k, novel) && s.groups[i].version == novel.groupVersion
    ensures AttemptsAgree(attempts + {novel})
  {
    forall b | b in attempts && b.decisionId == novel.decisionId ensures b == novel {
      SameDecisionSameAttempt(env, s, i, k, novel, b);
    }
  }

  lemma RostersFollow(env: Env, s: State, e: Event, rosters: set<Roster>)
    requires RostersOk(s, rosters)
    ensures RostersOk(Step(env, s, e), rosters)
  {
    EveryStepEvolves(env, s, e);
    var next := Step(env, s, e);
    forall r | r in rosters ensures RosterOk(next, r) {
      var i: nat :| i < |s.groups| && RosterFollows(s.groups[i], r);
      assert Evolves(env, e, s.groups[i], next.groups[i]);
      assert RosterFollows(next.groups[i], r);
    }
  }

  lemma RecordsFollow(records: map<Id, Record>, attempts: set<Attempt>, more: set<Attempt>)
    requires RecordsOk(records, attempts) && attempts <= more
    ensures RecordsOk(records, more)
  {
    forall d | d in records ensures RecordOk(records, more, d) {
      assert RecordOk(records, attempts, d);
    }
  }

  lemma ReservedAtGroupVersion(env: Env, s: State, e: Event)
    requires e.ReserveE? && Reserve(env, s, e.who, e.id, e.draftId, e.revision, e.enabled).Ok?
    ensures var i := OrganizedGroup(s, e.who, e.id).value;
            i < |Step(env, s, e).groups|
            && Step(env, s, e).groups[i].version
            == Reserve(env, s, e.who, e.id, e.draftId, e.revision, e.enabled).value.1.groupVersion
  {
  }

  lemma AttemptsGrow(env: Env, s: State, e: Event, attempts: set<Attempt>, novel: Attempt)
    requires Injective(env) && WellFormed(env, s) && WellFormed(env, Step(env, s, e)) && e.ReserveE?
    requires AttemptsOk(env, s, attempts) && AttemptsAgree(attempts)
    requires Reserve(env, s, e.who, e.id, e.draftId, e.revision, e.enabled).Ok?
    requires novel == Reserve(env, s, e.who, e.id, e.draftId, e.revision, e.enabled).value.1
    ensures AttemptsOk(env, Step(env, s, e), attempts + {novel}) && AttemptsAgree(attempts + {novel})
  {
    var i := OrganizedGroup(s, e.who, e.id).value;
    var k := FindDraft(s.groups[i].drafts, e.draftId).value;
    AttemptsFollow(env, s, e, attempts);
    ReservationBacked(env, s, e);
    ReservedAtGroupVersion(env, s, e);
    NovelAgrees(env, attempts, Step(env, s, e), i, k, novel);
    assert AttemptOk(env, Step(env, s, e), novel);
  }

  /** A reservation adds an attempt that its draft backs at the group's own version. */
  lemma ReserveWorldKeeps(env: Env, w: World, e: Event, novel: Attempt)
    requires Injective(env) && WorldOk(env, w) && e.ReserveE?
    requires Reserve(env, w.groups, e.who, e.id, e.draftId, e.revision, e.enabled).Ok?
    requires novel == Reserve(env, w.groups, e.who, e.id, e.draftId, e.revision, e.enabled).value.1
    ensures WorldOk(env, w.(groups := Step(env, w.groups, e), attempts := w.attempts + {novel}))
  {
    StepKeeps(env, w.groups, e);
    RostersFollow(env, w.groups, e, w.rosters);
    AttemptsGrow(env, w.groups, e, w.attempts, novel);
    RecordsFollow(w.records, w.attempts, w.attempts + {novel});
  }

  /** Any other transaction. */
  lemma TransactionKeeps(env: Env, w: World, e: Event)
    requires Injective(env) && Allowed(env, e) && WorldOk(env, w)
    ensures WorldOk(env, w.(groups := Step(env, w.groups, e)))
  {
    StepKeeps(env, w.groups, e);
    AttemptsFollow(env, w.groups, e, w.attempts);
    RostersFollow(env, w.groups, e, w.rosters);
  }

  /** What is created for an attempt that fits is sound. */
  lemma CreatedIsSound(a: Attempt)
    requires MembershipsFit(a)
    ensures Sound(CreatedRecord(a))
  {
    MatchingEnlists(a.frame.participants, a.members);
    var k :| 0 <= k < |a.members| && a.members[k].subject == a.creator;
    EnlistedIsMember(CreatedRecord(a), a.members[k]);
  }

  lemma RecordAdded(records: map<Id, Record>, attempts: set<Attempt>, a: Attempt)
    requires RecordsOk(records, attempts) && a in attempts && MembershipsFit(a)
    ensures RecordsOk(records[a.decisionId := CreatedRecord(a)], attempts)
  {
    var next := records[a.decisionId := CreatedRecord(a)];
    CreatedIsSound(a);
    forall d | d in next ensures RecordOk(next, attempts, d) {
      if d != a.decisionId { assert RecordOk(records, attempts, d); }
    }
  }

  lemma CreateKeeps(env: Env, w: World, a: Attempt, admitted: bool)
    requires WorldOk(env, w)
    ensures WorldOk(env, CreateStep(w, a, admitted))
  {
    if a in w.attempts && MembershipsFit(a) { RecordAdded(w.records, w.attempts, a); }
  }

  /** A roster read at a group's present version is its present members. */
  lemma RosterIsOf(env: Env, s: State, i: nat, r: Roster)
    requires WellFormed(env, s) && RosterOk(s, r)
    requires i < |s.groups| && s.groups[i].id == r.groupId && s.groups[i].version == r.version
    ensures r.members == s.groups[i].members
  {
    var j: nat :| j < |s.groups| && RosterFollows(s.groups[j], r);
    if i != j { GroupsDiffer(env, s, i, j); }
  }

  /** What the fence of a rebind has checked. */
  lemma RebindChecks(env: Env, s: State, event: Event)
    requires event.RebindE? && Apply(env, s, event).Ok?
    ensures OrganizedGroup(s, event.who, event.id).Ok?
    ensures s.groups[OrganizedGroup(s, event.who, event.id).value].version == event.rosterVersion
    ensures forall m :: m in event.roster ==> IsApproved(s.accounts, m)
  {
    forall m | m in event.roster ensures IsApproved(s.accounts, m) {
      var k :| 0 <= k < |event.roster| && event.roster[k] == m;
    }
  }

  /** The members that the revising organizer's group has at that moment. */
  function PresentMembers(s: State, event: Event): seq<Id>
    requires event.RebindE? && OrganizedGroup(s, event.who, event.id).Ok?
  {
    s.groups[OrganizedGroup(s, event.who, event.id).value].members
  }

  lemma RosterIsCurrent(env: Env, w: World, event: Event)
    requires WellFormed(env, w.groups) && RostersOk(w.groups, w.rosters)
    requires event.RebindE? && Roster(event.id, event.rosterVersion, event.roster) in w.rosters
    requires Apply(env, w.groups, event).Ok?
    ensures OrganizedGroup(w.groups, event.who, event.id).Ok?
    ensures event.roster == PresentMembers(w.groups, event) && event.who in event.roster
    ensures forall m :: m in event.roster ==> IsApproved(w.groups.accounts, m)
  {
    var r := Roster(event.id, event.rosterVersion, event.roster);
    RebindChecks(env, w.groups, event);
    assert RosterOk(w.groups, r);
    RosterIsOf(env, w.groups, OrganizedGroup(w.groups, event.who, event.id).value, r);
  }

  lemma AmongMemberships(env: Env, members: seq<Id>, who: Id)
    requires who in members
    ensures exists m :: m in Memberships(env, members) && m.subject == who
  {
    var k :| 0 <= k < |members| && members[k] == who;
    assert Memberships(env, members)[k] in Memberships(env, members);
  }

  /** Replacing one record by a sound one of the same origin. */
  lemma RecordReplaced(records: map<Id, Record>, attempts: set<Attempt>, d: Id, r: Record)
    requires RecordsOk(records, attempts) && d in records
    requires RecordFollows(records[d], r) && Sound(r)
    ensures RecordsOk(records[d := r], attempts)
  {
    forall x | x in records ensures RecordOk(records[d := r], attempts, x) {
      assert RecordOk(records, attempts, x);
    }
  }

  /** A revised record is sound. */
  lemma RevisedIsSound(env: Env, r: Record, frame: Frame, roster: seq<Id>)
    requires Sound(r) && r.creator in roster && ReviseRecord(r, frame, Memberships(env, roster)).Some?
    ensures Sound(ReviseRecord(r, frame, Memberships(env, roster)).value)
  {
    AmongMemberships(env, roster, r.creator);
    ReviseGives(r, frame, Memberships(env, roster));
    RevisedStays(r, frame, Memberships(env, roster), r.creator);
  }

  lemma RevisionKeeps(env: Env, records: map<Id, Record>, attempts: set<Attempt>, d: Id, frame: Frame, roster: seq<Id>)
    requires RecordsOk(records, attempts) && d in records && records[d].creator in roster
    requires ReviseRecord(records[d], frame, Memberships(env, roster)).Some?
    ensures RecordsOk(records[d := ReviseRecord(records[d], frame, Memberships(env, roster)).value], attempts)
  {
    assert RecordOk(records, attempts, d);
    RevisedIsSound(env, records[d], frame, roster);
    ReviseGives(records[d], frame, Memberships(env, roster));
    RecordReplaced(records, attempts, d, ReviseRecord(records[d], frame, Memberships(env, roster)).value);
  }

  lemma AppliedRevisionKeeps(env: Env, w: World, event: Event, expected: nat, frame: Frame)
    requires Injective(env) && WorldOk(env, w) && Revises(env, w, event, expected, frame)
    ensures WorldOk(env, ReviseStep(env, w, event, expected, frame))
  {
    TransactionKeeps(env, w, event);
    RosterIsCurrent(env, w, event);
    RevisionKeeps(env, w.records, w.attempts, event.bound, frame, event.roster);
  }

  lemma ReviseStepKeeps(env: Env, w: World, event: Event, expected: nat, frame: Frame)
    requires Injective(env) && WorldOk(env, w)
    ensures WorldOk(env, ReviseStep(env, w, event, expected, frame))
  {
    if Revises(env, w, event, expected, frame) { AppliedRevisionKeeps(env, w, event, expected, frame); }
  }

  /** A revision is checked before, and takes effect together with, its rebind. */
  lemma RevisesExactly(env: Env, w: World, event: Event, expected: nat, frame: Frame)
    requires event.RebindE?
    ensures var rebound := Rebind(w.groups, event.who, event.id, event.bound, event.previewVersion,
                                  event.rosterVersion, event.roster);
            && (Revises(env, w, event, expected, frame) <==>
                  && Roster(event.id, event.rosterVersion, event.roster) in w.rosters
                  && event.bound in w.records && w.records[event.bound].creator == event.who
                  && IsMember(w.records[event.bound], event.who) && w.records[event.bound].control == expected
                  && rebound.Ok?
                  && ReviseRecord(w.records[event.bound], frame, Memberships(env, event.roster)).Some?)
            && (rebound.Ok? ==> Step(env, w.groups, event) == rebound.value)
  {
  }

  /** The record after those who have joined were included is sound. */
  lemma JoinedIsSound(env: Env, w: World, who: Id, decision: Id)
    requires decision in w.records && Sound(w.records[decision]) && WithJoined(env, w, who, decision).Some?
    ensures Sound(WithJoined(env, w, who, decision).value)
  {
    var r, people := w.records[decision], Memberships(env, DecisionRoster(w.groups, who, decision).value);
    IncludeGives(r, ParticipantIds(people), people);
    IncludedStays(r, ParticipantIds(people), people, r.creator);
  }

  /** What a command leaves of a record is of the same origin, and sound. */
  lemma CommandIsSound(env: Env, w: World, who: Id, decision: Id, joins: bool, outcome: Option<Standing>)
    requires decision in w.records && Sound(w.records[decision])
    ensures var next := CommandStep(env, w, who, decision, joins, outcome);
            && decision in next.records && Sound(next.records[decision])
            && next == w.(records := w.records[decision := next.records[decision]])
            && RecordFollows(w.records[decision], next.records[decision])
  {
    assert w.records == w.records[decision := w.records[decision]];
    if joins && WithJoined(env, w, who, decision).Some? { JoinedIsSound(env, w, who, decision); }
  }

  lemma CommandKeeps(env: Env, w: World, who: Id, decision: Id, joins: bool, outcome: Option<Standing>)
    requires WorldOk(env, w)
    ensures WorldOk(env, CommandStep(env, w, who, decision, joins, outcome))
  {
    if decision in w.records {
      assert RecordOk(w.records, w.attempts, decision);
      CommandIsSound(env, w, who, decision, joins, outcome);
      var next := CommandStep(env, w, who, decision, joins, outcome);
      RecordReplaced(w.records, w.attempts, decision, next.records[decision]);
    }
  }

  lemma RosterReadKeeps(env: Env, w: World, who: Id, id: Id)
    requires WorldOk(env, w)
    ensures WorldOk(env, RosterStep(w, who, id))
  {
    var read := RosterOf(w.groups, who, id);
    if read.Some? {
      var i := OrganizedGroup(w.groups, who, id).value;
      assert RosterFollows(w.groups.groups[i], read.value);
      assert RosterOk(w.groups, read.value);
    }
  }

  lemma TransactStepKeeps(env: Env, w: World, event: Event)
    requires Injective(env) && Allowed(env, event) && WorldOk(env, w)
    ensures WorldOk(env, TransactStep(env, w, event))
  {
    TransactionKeeps(env, w, event);
    if event.ReserveE? {
      var reserved := Reserve(env, w.groups, event.who, event.id, event.draftId, event.revision, event.enabled);
      if reserved.Ok? { ReserveWorldKeeps(env, w, event, reserved.value.1); }
    }
  }

  lemma StepWorldKeeps(env: Env, w: World, e: WorldEvent)
    requires Injective(env) && AllowedWorld(env, e) && WorldOk(env, w)
    ensures WorldOk(env, StepWorld(env, w, e))
  {
    match e
    case Transact(event) => TransactStepKeeps(env, w, event);
    case Create(a, admitted) => CreateKeeps(env, w, a, admitted);
    case ReadRoster(who, id) => RosterReadKeeps(env, w, who, id);
    case Revise(event, expected, frame) => ReviseStepKeeps(env, w, event, expected, frame);
    case Command(who, decision, joins, outcome) => CommandKeeps(env, w, who, decision, joins, outcome);
  }

  lemma {:induction false} RunWorldKeeps(env: Env, w: World, events: seq<WorldEvent>)
    requires Injective(env) && WorldOk(env, w) && AllAllowedWorld(env, events)
    ensures WorldOk(env, RunWorld(env, w, events))
    decreases |events|
  {
    if events != [] {
      assert AllowedWorld(env, events[0]);
      var next := StepWorld(env, w, events[0]);
      StepWorldKeeps(env, w, events[0]);
      TailAllowed(env, events);
      RunWorldKeeps(env, next, events[1..]);
    }
  }

  lemma TailAllowed(env: Env, events: seq<WorldEvent>)
    requires events != [] && AllAllowedWorld(env, events)
    ensures AllAllowedWorld(env, events[1..])
  {
  }

  lemma ReachedOk(env: Env, events: seq<WorldEvent>, w: World)
    requires Reaches(env, events, w)
    ensures WorldOk(env, w)
  {
    RunWorldKeeps(env, START, events);
  }

  /** However edits, joins, removals, retries and creations interleave, all attempts that pass the
      reservation of one decision carry the same frame, revision, memberships, creator and body. */
  lemma ReservationsAgree(env: Env, events: seq<WorldEvent>, w: World, a: Attempt, b: Attempt)
    requires Reaches(env, events, w) && a in w.attempts && b in w.attempts && a.decisionId == b.decisionId
    ensures a == b && BodyOf(a) == BodyOf(b)
  {
    ReachedOk(env, events, w);
  }

  /** A retried creation is told that the decision is absent or is given its own decision; it never conflicts. */
  lemma ReplayNeverConflicts(env: Env, events: seq<WorldEvent>, w: World, a: Attempt)
    requires Reaches(env, events, w) && a in w.attempts
    ensures Lookup(w.records, a) == if a.decisionId in w.records then Replayed(w.records[a.decisionId]) else Absent
  {
    ReachedOk(env, events, w);
    if a.decisionId in w.records {
      assert RecordOk(w.records, w.attempts, a.decisionId);
    }
  }

  /** The draft that the attempt was reserved for is locked for its decision and has this frame. */
  predicate LockedDraft(g: Group, a: Attempt, frame: Frame) {
    exists k :: 0 <= k < |g.drafts| && g.drafts[k].id == a.draftId && g.drafts[k].created == Some(a.decisionId)
                && g.drafts[k].revision == a.revision && g.drafts[k].frame == frame
  }

  /** A decision is created with exactly the members its group has at that moment, all of them approved, and with the
      frame of its locked draft; it is open, and nothing has changed it yet. */
  lemma CreatedWithCurrentRoster(env: Env, events: seq<WorldEvent>, w: World, a: Attempt, admitted: bool)
    requires Reaches(env, events, w) && a.decisionId !in w.records && a.decisionId in CreateStep(w, a, admitted).records
    ensures var i := OrganizedGroup(w.groups, a.creator, a.groupId);
            && i.Ok?
            && var g, r := w.groups.groups[i.value], CreateStep(w, a, admitted).records[a.decisionId];
               && r.memberships == Memberships(env, g.members)
               && (forall m :: m in g.members ==> IsApproved(w.groups.accounts, m))
               && r.creator == g.organizer && r.frame == a.frame && LockedDraft(g, a, r.frame)
               && r.standing == Open && r.control == 0
  {
    ReachedOk(env, events, w);
    var i := OrganizedGroup(w.groups, a.creator, a.groupId).value;
    assert AttemptOk(env, w.groups, a);
    var j: nat, l: nat :| j < |w.groups.groups| && Backed(env, w.groups.groups[j], l, a);
    if i != j { GroupsDiffer(env, w.groups, i, j); }
    FencedMembersApproved(env, w.groups, w.groups.groups[i], a);
  }

  lemma FencedMembersApproved(env: Env, s: State, g: Group, a: Attempt)
    requires a.members == Memberships(env, g.members)
    requires forall k :: 0 <= k < |a.members| ==> IsApproved(s.accounts, a.members[k].subject)
    ensures forall m :: m in g.members ==> IsApproved(s.accounts, m)
  {
    forall m | m in g.members ensures IsApproved(s.accounts, m) {
      var k :| 0 <= k < |g.members| && g.members[k] == m;
      assert a.members[k].subject == m;
    }
  }

  /** The record is on the terms of the new frame and has exactly the members that the group has at that moment, all of
      them approved; what is recorded of a finished decision stays, unless its terms are changed too. */
  ghost predicate TakesRoster(env: Env, s: State, event: Event, frame: Frame, r: Record, next: Record)
    requires event.RebindE? && OrganizedGroup(s, event.who, event.id).Ok?
  {
    && SameTerms(next.frame, frame) && (forall m :: m in PresentMembers(s, event) ==> IsApproved(s.accounts, m))
    && if SameTerms(frame, r.frame) && Finished(r) then next == r
       else HasMembers(next, Memberships(env, PresentMembers(s, event))) && !Finished(next)
  }

  /** However the roster was read, a revision that goes through takes the group's present one. */
  lemma RevisedWithCurrentRoster(env: Env, events: seq<WorldEvent>, w: World, event: Event, expected: nat,
                                 frame: Frame)
    requires Reaches(env, events, w) && Revises(env, w, event, expected, frame)
    ensures OrganizedGroup(w.groups, event.who, event.id).Ok?
    ensures TakesRoster(env, w.groups, event, frame, w.records[event.bound],
                        RevisedRecord(env, w, event, expected, frame))
  {
    ReachedOk(env, events, w);
    RosterIsCurrent(env, w, event);
    assert RecordOk(w.records, w.attempts, event.bound);
    ReviseGives(w.records[event.bound], frame, Memberships(env, event.roster));
  }

  /** A decision transaction that includes those who have joined leaves an open decision with exactly the members its
      group has at that moment, those recorded before first and in their order; a finished one keeps its own. */
  lemma JoinedWithCurrentRoster(env: Env, events: seq<WorldEvent>, w: World, who: Id, decision: Id)
    requires Reaches(env, events, w) && decision in w.records && WithJoined(env, w, who, decision).Some?
    ensures BindingGroup(w.groups, decision).Some?
    ensures var r, next := w.records[decision], WithJoined(env, w, who, decision).value;
            var g := w.groups.groups[BindingGroup(w.groups, decision).value];
            && SameTerms(next.frame, r.frame) && r.frame.participants <= next.frame.participants
            && who in g.members && (forall m :: m in g.members ==> IsApproved(w.groups.accounts, m))
            && if Finished(r) then next == r else HasMembers(next, Memberships(env, g.members))
  {
    ReachedOk(env, events, w);
    assert RecordOk(w.records, w.attempts, decision);
    RosterShown(env, w.groups, who, decision);
    var people := Memberships(env, DecisionRoster(w.groups, who, decision).value);
    IncludeGives(w.records[decision], ParticipantIds(people), people);
  }

  lemma RosterShown(env: Env, s: State, who: Id, decision: Id)
    requires WellFormed(env, s) && DecisionRoster(s, who, decision).Some?
    ensures var g := s.groups[BindingGroup(s, decision).value];
            && DecisionRoster(s, who, decision) == Some(g.members) && who in g.members
            && forall m :: m in g.members ==> IsApproved(s.accounts, m)
  {
    var i := BindingGroup(s, decision).value;
    var j := GroupOf(s, who, s.groups[i].id).value;
    if i != j { GroupsDiffer(env, s, i, j); }
    forall m | m in s.groups[i].members ensures IsApproved(s.accounts, m) {
      var k :| 0 <= k < |s.groups[i].members| && s.groups[i].members[k] == m;
    }
  }

  /** The roster is shown exactly to the organizer of a live group whose members are all approved. */
  lemma RosterExactly(s: State, who: Id, id: Id)
    ensures RosterOf(s, who, id).Some? <==>
              OrganizedGroup(s, who, id).Ok?
              && forall m :: m in s.groups[OrganizedGroup(s, who, id).value].members ==> IsApproved(s.accounts, m)
    ensures RosterOf(s, who, id).Some? ==>
              var g := s.groups[OrganizedGroup(s, who, id).value];
              RosterOf(s, who, id).value == Roster(g.id, g.version, g.members)
  {
    if OrganizedGroup(s, who, id).Ok? { EveryMember(s, s.groups[OrganizedGroup(s, who, id).value].members); }
  }

  lemma EveryMember(s: State, members: seq<Id>)
    ensures (exists k :: 0 <= k < |members| && !IsApproved(s.accounts, members[k])) <==>
            !(forall m :: m in members ==> IsApproved(s.accounts, m))
  {
    if m :| m in members && !IsApproved(s.accounts, m) {
      var k :| 0 <= k < |members| && members[k] == m;
    }
  }

  /** Who has joined is read exactly for a member of the live group that answers for the decision, while its binding is
      current and every member approved. */
  lemma DecisionRosterExactly(env: Env, s: State, who: Id, decision: Id)
    requires WellFormed(env, s)
    ensures DecisionRoster(s, who, decision).Some? <==>
              BindingGroup(s, decision).Some?
              && var g := s.groups[BindingGroup(s, decision).value];
                 && !g.deleted && who in g.members && Current(g, decision)
                 && forall m :: m in g.members ==> IsApproved(s.accounts, m)
  {
    if BindingGroup(s, decision).Some? {
      var i := BindingGroup(s, decision).value;
      EveryMember(s, s.groups[i].members);
      if GroupOf(s, who, s.groups[i].id).Ok? {
        var j := GroupOf(s, who, s.groups[i].id).value;
        if i != j { GroupsDiffer(env, s, i, j); }
      } else if !s.groups[i].deleted && IsApproved(s.accounts, who) {
        GroupOfSelected(env, s, who, i);
      }
    }
  }

  /** In every reachable world the members of a decision are its participants, each once, and its creator is one of
      them. */
  lemma CreatorStaysMember(env: Env, events: seq<WorldEvent>, w: World, d: Id)
    requires Reaches(env, events, w) && d in w.records
    ensures IsMember(w.records[d], w.records[d].creator)
    ensures Enlists(w.records[d].frame.participants, w.records[d].memberships)
  {
    ReachedOk(env, events, w);
    assert RecordOk(w.records, w.attempts, d);
  }

  /** The same decision later on: its origin is the same, and an unchanged control version means an unchanged record. */
  predicate RecordFollows(r: Record, r': Record) {
    r'.body == r.body && r'.creator == r.creator && r'.control >= r.control && (r'.control == r.control ==> r' == r)
  }

  lemma RecordSteps(env: Env, w: World, e: WorldEvent, d: Id)
    requires d in w.records
    ensures var next := StepWorld(env, w, e); d in next.records && RecordFollows(w.records[d], next.records[d])
  {
  }

  /** Once a decision exists, no later step changes what it was created from, and its control version tells of every
      change of it. */
  lemma {:induction false} CreatedOnce(env: Env, w: World, events: seq<WorldEvent>, d: Id)
    requires d in w.records
    ensures d in RunWorld(env, w, events).records && RecordFollows(w.records[d], RunWorld(env, w, events).records[d])
    decreases |events|
  {
    if events != [] {
      RecordSteps(env, w, events[0], d);
      CreatedOnce(env, StepWorld(env, w, events[0]), events[1..], d);
    }
  }

  // ----- worlds reached from one another

  /** The second world is reached from the first by some run of allowed events. */
  ghost predicate Later(env: Env, w: World, w': World) {
    exists events :: AllAllowedWorld(env, events) && w' == RunWorld(env, w, events)
  }

  /** Some run of allowed events makes this world out of nothing. */
  ghost predicate Attained(env: Env, w: World) {
    Injective(env) && Later(env, START, w)
  }

  lemma {:induction false} RunWorldConcat(env: Env, w: World, first: seq<WorldEvent>, second: seq<WorldEvent>)
    ensures RunWorld(env, w, first + second) == RunWorld(env, RunWorld(env, w, first), second)
    decreases |first|
  {
    if first == [] {
      assert first + second == second;
    } else {
      assert (first + second)[1..] == first[1..] + second;
      RunWorldConcat(env, StepWorld(env, w, first[0]), first[1..], second);
    }
  }

  lemma LaterNow(env: Env, w: World)
    ensures Later(env, w, w)
  {
    assert AllAllowedWorld(env, []) && w == RunWorld(env, w, []);
  }

  lemma LaterAgain(env: Env, first: World, second: World, third: World)
    requires Later(env, first, second) && Later(env, second, third)
    ensures Later(env, first, third)
  {
    var a :| AllAllowedWorld(env, a) && second == RunWorld(env, first, a);
    var b :| AllAllowedWorld(env, b) && third == RunWorld(env, second, b);
    RunWorldConcat(env, first, a, b);
    assert AllAllowedWorld(env, a + b);
  }

  lemma LaterStep(env: Env, w: World, e: WorldEvent)
    requires AllowedWorld(env, e)
    ensures Later(env, w, StepWorld(env, w, e))
  {
    assert [e][1..] == [];
    assert AllAllowedWorld(env, [e]) && StepWorld(env, w, e) == RunWorld(env, w, [e]);
  }

  lemma AttainedLater(env: Env, w: World, w': World)
    requires Attained(env, w) && Later(env, w, w')
    ensures Attained(env, w')
  {
    LaterAgain(env, START, w, w');
  }

  lemma AttainedOk(env: Env, w: World)
    requires Attained(env, w)
    ensures WorldOk(env, w)
  {
    var events :| AllAllowedWorld(env, events) && w == RunWorld(env, START, events);
    ReachedOk(env, events, w);
  }

  lemma StepRemembers(env: Env, w: World, e: WorldEvent)
    ensures w.attempts <= StepWorld(env, w, e).attempts && w.rosters <= StepWorld(env, w, e).rosters
  {
  }

  lemma {:induction false} RunRemembers(env: Env, w: World, events: seq<WorldEvent>)
    ensures w.attempts <= RunWorld(env, w, events).attempts && w.rosters <= RunWorld(env, w, events).rosters
    decreases |events|
  {
    if events != [] {
      StepRemembers(env, w, events[0]);
      RunRemembers(env, StepWorld(env, w, events[0]), events[1..]);
    }
  }

  /** Attempts and rosters are never forgotten. */
  lemma LaterRemembers(env: Env, w: World, w': World)
    requires Later(env, w, w')
    ensures w.attempts <= w'.attempts && w.rosters <= w'.rosters
  {
    var events :| AllAllowedWorld(env, events) && w' == RunWorld(env, w, events);
    RunRemembers(env, w, events);
  }

  lemma RecordLater(env: Env, w: World, w': World, d: Id)
    requires Later(env, w, w') && d in w.records
    ensures d in w'.records && RecordFollows(w.records[d], w'.records[d])
  {
    var events :| AllAllowedWorld(env, events) && w' == RunWorld(env, w, events);
    CreatedOnce(env, w, events, d);
  }
}
