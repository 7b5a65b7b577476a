/** Which transactions go through: exactly who may make them, and on what state, told without the searches and the order
    of checks by which the service finds out. */
module GroupAdmission {
  import opened Prelude
  import opened GroupState
  import opened GroupTransitions
  import opened GroupInvariant
  import opened GroupHistory
  import opened GroupRevocation
  import opened GroupEffects

  // ----- searches on a state in order

  /** The live group with this identifier is this one, and the caller is its approved organizer. */
  predicate Organizes(s: State, i: nat, who: Id, id: Id) {
    && i < |s.groups| && s.groups[i].id == id && !s.groups[i].deleted && s.groups[i].organizer == who
    && IsApproved(s.accounts, who)
  }

  lemma OrganizerFound(env: Env, s: State, i: nat, who: Id, id: Id)
    requires WellFormed(env, s)
    ensures Organizes(s, i, who, id) <==> OrganizedGroup(s, who, id) == Ok(i)
  {
    if Organizes(s, i, who, id) {
      assert MembersOk(s.accounts, s.groups[i]) by { assert GroupOk(env, s.accounts, s.groups[i]); }
      GroupOfSelected(env, s, who, i);
    }
  }

  predicate HasDraft(g: Group, d: Draft) { d in g.drafts }

  predicate HasBinding(g: Group, b: Binding) { b in g.decisions }

  lemma DraftFound(env: Env, s: State, i: nat, d: Draft)
    requires WellFormed(env, s) && i < |s.groups| && HasDraft(s.groups[i], d)
    ensures DraftIn(s.groups[i], d.id) == Some(d)
  {
    var g := s.groups[i];
    assert DraftsOk(env, g) by { assert GroupOk(env, s.accounts, g); }
    var k := FindDraft(g.drafts, d.id).value;
    var l :| 0 <= l < |g.drafts| && g.drafts[l] == d;
    assert k < l ==> DifferentDrafts(g.drafts[k], g.drafts[l]);
    assert l < k ==> DifferentDrafts(g.drafts[l], g.drafts[k]);
  }

  lemma BindingFound(env: Env, s: State, i: nat, b: Binding)
    requires WellFormed(env, s) && i < |s.groups| && HasBinding(s.groups[i], b)
    ensures Binds(s.groups[i], b.id) && s.groups[i].decisions[FindBinding(s.groups[i].decisions, b.id).value] == b
  {
    var g := s.groups[i];
    assert BindingsOk(g) by { assert GroupOk(env, s.accounts, g); }
    var l :| 0 <= l < |g.decisions| && g.decisions[l] == b;
    FoundOnce(g.decisions, l);
  }

  // ----- what each transaction asks for

  /** Somebody in the group has this e-mail address. */
  predicate Addresses(s: State, g: Group, email: Id) {
    exists m :: m in g.members && EmailOf(s.accounts, m) == Some(email)
  }

  /** An invitation of this address that has not run out and nobody has accepted. */
  predicate OpenInvitation(g: Group, email: Id, now: nat) {
    exists v :: v in g.invitations && v.recipientHash == email && v.acceptedBy.None? && v.expiresAt > now
  }

  ghost predicate MayInvite(s: State, g: Group, recipient: Id, replace: bool, now: nat) {
    && !Addresses(s, g, recipient) && (replace || !OpenInvitation(g, recipient, now))
    && |KeptInvitations(g, recipient, now)| < MAX_ITEMS
  }

  ghost predicate MayRename(g: Group, version: nat, decision: Option<Id>, previous: string, name: string) {
    && g.version == version
    && (decision.Some? ==> exists b :: HasBinding(g, b) && b.id == decision.value && !b.deleted)
    && Shown(g, decision) in {Some(previous), Some(name)}
  }

  ghost predicate MayRemoveItem(g: Group, version: nat, kind: ItemKind, item: Id) {
    && g.version == version
    && match kind
       case DraftItem => exists d :: HasDraft(g, d) && d.id == item && d.created.None?
       case DecisionItem => Binds(g, item)
  }

  ghost predicate MayBind(g: Group, decision: Id, version: nat) {
    && g.version == version
    && if Binds(g, decision) then Current(g, decision) else |g.decisions| < MAX_ITEMS
  }

  /** The draft that a request continues is there, undeleted, in the revision it was read in. */
  ghost predicate Continues(g: Group, previous: Option<(Id, nat)>) {
    previous.Some? ==>
      exists d :: HasDraft(g, d) && d.id == previous.value.0 && d.revision == previous.value.1 && !d.deleted
  }

  ghost predicate MaySave(g: Group, rosterVersion: nat, draftId: Id, bodyHash: Id, previous: Option<(Id, nat)>,
                          enabled: bool) {
    && g.version == rosterVersion && enabled && Continues(g, previous)
    && (HoldsDraft(g, draftId, bodyHash)
        || ((forall d :: HasDraft(g, d) ==> d.id != draftId) && |g.drafts| < MAX_ITEMS))
  }

  ghost predicate MayEdit(g: Group, draftId: Id, revision: nat, valid: bool) {
    valid && exists d :: HasDraft(g, d) && d.id == draftId && !d.deleted && d.created.None? && d.revision == revision
                         && d.groupVersion == g.version
  }

  /** Every member is approved and a participant of the frame. */
  ghost predicate Seated(env: Env, s: State, g: Group, frame: Frame) {
    forall m :: m in g.members ==> IsApproved(s.accounts, m) && env.memberId(m) in frame.participants
  }

  ghost predicate MayReserve(env: Env, s: State, g: Group, draftId: Id, revision: nat, enabled: bool) {
    enabled && exists d ::
      && HasDraft(g, d) && d.id == draftId && !d.deleted && d.revision == revision && d.groupVersion == g.version
      && d.questions == [] && env.hasCandidates(d.frame) && Seated(env, s, g, d.frame)
      && (d.created.Some? || |g.decisions| < MAX_ITEMS)
  }

  ghost predicate MayRebind(s: State, g: Group, decision: Id, previewVersion: nat, rosterVersion: nat,
                            roster: seq<Id>) {
    && g.version == previewVersion == rosterVersion
    && (forall m :: m in roster ==> m in g.members && IsApproved(s.accounts, m))
    && exists b :: HasBinding(g, b) && b.id == decision && !b.deleted
  }

  /** What an organizer's transaction asks of the group. */
  ghost predicate Suits(env: Env, s: State, g: Group, e: Event) {
    match e
    case InviteE(_, _, recipient, replace, _, now) => MayInvite(s, g, recipient, replace, now)
    case RenameE(_, _, version, decision, previous, name) => MayRename(g, version, decision, previous, name)
    case RemoveItemE(_, _, version, kind, item) => MayRemoveItem(g, version, kind, item)
    case RemoveE(_, _, member, version) =>
      g.version == version && Leaver(env, g, member).Some? && Leaver(env, g, member) != Some(g.organizer)
    case DeleteGroupE(_, _, version) => g.version == version
    case BindDecisionE(_, _, bound, version) => MayBind(g, bound, version)
    case SaveDraftE(_, _, rosterVersion, draftId, bodyHash, _, _, continued, enabled) =>
      MaySave(g, rosterVersion, draftId, bodyHash, continued, enabled)
    case EditE(_, _, draftId, revision, _, _, _, valid) => MayEdit(g, draftId, revision, valid)
    case ReserveE(_, _, draftId, revision, enabled) => MayReserve(env, s, g, draftId, revision, enabled)
    case RebindE(_, _, bound, previewVersion, rosterVersion, roster) =>
      MayRebind(s, g, bound, previewVersion, rosterVersion, roster)
    case _ => false
  }

  predicate ByOrganizer(e: Event) {
    !e.RegisterE? && !e.OperateE? && !e.CreateGroupE? && !e.AcceptE?
  }

  // ----- one transaction after the other

  lemma InviteSuits(s: State, i: nat, who: Id, id: Id, recipient: Id, replace: bool, token: Id, now: nat)
    requires OrganizedGroup(s, who, id) == Ok(i)
    ensures Invite(s, who, id, recipient, replace, token, now).Ok? <==>
              MayInvite(s, s.groups[i], recipient, replace, now)
  {
    var g := s.groups[i];
    assert MemberHolds(s.accounts, g, recipient) <==> Addresses(s, g, recipient);
    assert LivePrior(g, recipient, now) <==> OpenInvitation(g, recipient, now);
  }

  lemma RenameSuits(env: Env, s: State, i: nat, who: Id, id: Id, version: nat, decision: Option<Id>,
                    previous: string, name: string)
    requires WellFormed(env, s) && OrganizedGroup(s, who, id) == Ok(i)
    ensures Rename(s, who, id, version, decision, previous, name).Ok? <==>
              MayRename(s.groups[i], version, decision, previous, name)
  {
    var g := s.groups[i];
    if decision.Some? {
      var at := IndexOf(g.decisions, (b: Binding) => b.id == decision.value && !b.deleted);
      if at.Some? {
        assert HasBinding(g, g.decisions[at.value]);
        BindingFound(env, s, i, g.decisions[at.value]);
      }
    }
  }

  lemma RemoveItemSuits(env: Env, s: State, i: nat, who: Id, id: Id, version: nat, kind: ItemKind, item: Id)
    requires WellFormed(env, s) && OrganizedGroup(s, who, id) == Ok(i)
    ensures RemoveItem(s, who, id, version, kind, item).Ok? <==> MayRemoveItem(s.groups[i], version, kind, item)
  {
    var g := s.groups[i];
    if kind.DraftItem? {
      if d :| HasDraft(g, d) && d.id == item && d.created.None? { DraftFound(env, s, i, d); }
      var at := FindDraft(g.drafts, item);
      if at.Some? { assert HasDraft(g, g.drafts[at.value]); }
    }
  }

  lemma SaveSuits(env: Env, s: State, i: nat, e: Event)
    requires WellFormed(env, s) && e.SaveDraftE? && OrganizedGroup(s, e.who, e.id) == Ok(i)
    ensures Apply(env, s, e).Ok? <==> Suits(env, s, s.groups[i], e)
  {
    var g := s.groups[i];
    assert PreviousKept(g, e.continued) <==> Continues(g, e.continued);
    var at := FindDraft(g.drafts, e.draftId);
    if at.Some? { assert HasDraft(g, g.drafts[at.value]); }
  }

  lemma EditSuits(env: Env, s: State, i: nat, e: Event)
    requires WellFormed(env, s) && e.EditE? && OrganizedGroup(s, e.who, e.id) == Ok(i)
    ensures Apply(env, s, e).Ok? <==> Suits(env, s, s.groups[i], e)
  {
    var g := s.groups[i];
    if d :| HasDraft(g, d) && d.id == e.draftId { DraftFound(env, s, i, d); }
    var at := FindDraft(g.drafts, e.draftId);
    if at.Some? {
      assert HasDraft(g, g.drafts[at.value]);
      forall d | HasDraft(g, d) && d.id == e.draftId ensures d == g.drafts[at.value] { DraftFound(env, s, i, d); }
    }
  }

  lemma ReservableExactly(env: Env, s: State, i: nat, e: Event, d: Draft)
    requires e.ReserveE? && OrganizedGroup(s, e.who, e.id) == Ok(i) && DraftIn(s.groups[i], e.draftId) == Some(d)
    ensures Apply(env, s, e).Ok? <==>
              && e.enabled && !d.deleted && d.revision == e.revision && d.groupVersion == s.groups[i].version
              && d.questions == [] && env.hasCandidates(d.frame) && Seated(env, s, s.groups[i], d.frame)
              && (d.created.Some? || |s.groups[i].decisions| < MAX_ITEMS)
  {
    assert RosterFits(env, s.accounts, s.groups[i], d.frame) <==> Seated(env, s, s.groups[i], d.frame);
  }

  lemma ReserveSuits(env: Env, s: State, i: nat, e: Event)
    requires WellFormed(env, s) && e.ReserveE? && OrganizedGroup(s, e.who, e.id) == Ok(i)
    ensures Apply(env, s, e).Ok? <==> Suits(env, s, s.groups[i], e)
  {
    var g := s.groups[i];
    var at := FindDraft(g.drafts, e.draftId);
    if at.Some? {
      var d := g.drafts[at.value];
      assert HasDraft(g, d);
      forall x | HasDraft(g, x) && x.id == e.draftId ensures x == d { DraftFound(env, s, i, x); }
      ReservableExactly(env, s, i, e, d);
    }
  }

  lemma RebindSuits(env: Env, s: State, i: nat, e: Event)
    requires WellFormed(env, s) && e.RebindE? && OrganizedGroup(s, e.who, e.id) == Ok(i)
    ensures Apply(env, s, e).Ok? <==> Suits(env, s, s.groups[i], e)
  {
    var g := s.groups[i];
    var at := FindBinding(g.decisions, e.bound);
    if at.Some? {
      assert HasBinding(g, g.decisions[at.value]);
      forall b | HasBinding(g, b) && b.id == e.bound ensures b == g.decisions[at.value] { BindingFound(env, s, i, b); }
    }
  }

  /** Exactly: an organizer's transaction goes through if and only if the caller is the approved organizer of a live
      group with that identifier, and that group suits it. */
  lemma OrganizerGoesThrough(env: Env, s: State, e: Event)
    requires WellFormed(env, s) && ByOrganizer(e)
    ensures Apply(env, s, e).Ok? <==> exists i: nat :: Organizes(s, i, e.who, e.id) && Suits(env, s, s.groups[i], e)
  {
    var at := OrganizedGroup(s, e.who, e.id);
    if at.Ok? {
      var i := at.value;
      OrganizerFound(env, s, i, e.who, e.id);
      forall j: nat | Organizes(s, j, e.who, e.id) ensures j == i { OrganizerFound(env, s, j, e.who, e.id); }
      SuitsExactly(env, s, i, e);
    } else {
      forall j: nat ensures !Organizes(s, j, e.who, e.id) { OrganizerFound(env, s, j, e.who, e.id); }
      NobodyOrganizes(env, s, e);
    }
  }

  lemma NobodyOrganizes(env: Env, s: State, e: Event)
    requires ByOrganizer(e) && OrganizedGroup(s, e.who, e.id).Err?
    ensures Apply(env, s, e).Err?
  {
  }

  lemma SuitsExactly(env: Env, s: State, i: nat, e: Event)
    requires WellFormed(env, s) && ByOrganizer(e) && OrganizedGroup(s, e.who, e.id) == Ok(i)
    ensures Apply(env, s, e).Ok? <==> Suits(env, s, s.groups[i], e)
  {
    match e
    case InviteE(who, id, recipient, replace, token, now) => InviteSuits(s, i, who, id, recipient, replace, token, now);
    case RenameE(who, id, version, decision, previous, name) =>
      RenameSuits(env, s, i, who, id, version, decision, previous, name);
    case RemoveItemE(who, id, version, kind, item) => RemoveItemSuits(env, s, i, who, id, version, kind, item);
    case SaveDraftE(_, _, _, _, _, _, _, _, _) => SaveSuits(env, s, i, e);
    case EditE(_, _, _, _, _, _, _, _) => EditSuits(env, s, i, e);
    case ReserveE(_, _, _, _, _) => ReserveSuits(env, s, i, e);
    case RebindE(_, _, _, _, _, _) => RebindSuits(env, s, i, e);
    case RemoveE(_, _, _, _) => {}
    case DeleteGroupE(_, _, _) => {}
    case BindDecisionE(_, _, _, _) => {}
  }

  // ----- the others

  /** What a transaction asks for that is not an organizer's. */
  ghost predicate Admits(s: State, e: Event) {
    match e
    case RegisterE(who, verified, emailHash, _, _) =>
      verified && if EmailOf(s.accounts, who).Some? then EmailOf(s.accounts, who) == Some(emailHash)
                  else |s.accounts| < MAX_ACCOUNTS && forall a :: a in s.accounts ==> a.emailHash != emailHash
    case OperateE(action, subject, expected) =>
      exists a :: a in s.accounts && a.subject == subject
                  && (a.status == Wanted(action)
                      || (a.version == expected && (action == Reject ==> a.status == Pending)))
    case CreateGroupE(who, id, name) =>
      IsApproved(s.accounts, who)
      && if exists g :: g in s.groups && g.id == id
         then exists g :: g in s.groups && g.id == id && !g.deleted && g.name == name
         else |s.groups| < MAX_GROUPS
    case _ => false
  }

  function Wanted(action: Action): Status {
    match action
    case Approve => Approved
    case Reject => Rejected
    case Disable => Disabled
  }

  lemma AccountFound(s: State, a: Account)
    requires AccountsOk(s.accounts) && a in s.accounts
    ensures FindAccount(s.accounts, a.subject).Some?
    ensures s.accounts[FindAccount(s.accounts, a.subject).value] == a
  {
    var k :| 0 <= k < |s.accounts| && s.accounts[k] == a;
    FindAccountIs(s.accounts, k);
  }

  lemma OperateAdmits(s: State, action: Action, subject: Id, expected: nat)
    requires AccountsOk(s.accounts)
    ensures Operate(s, action, subject, expected).Ok? <==> Admits(s, OperateE(action, subject, expected))
  {
    var at := FindAccount(s.accounts, subject);
    if at.Some? {
      assert s.accounts[at.value] in s.accounts;
      forall a | a in s.accounts && a.subject == subject ensures a == s.accounts[at.value] { AccountFound(s, a); }
    }
  }

  lemma CreateAdmits(env: Env, s: State, who: Id, id: Id, name: string)
    requires WellFormed(env, s)
    ensures CreateGroup(s, who, id, name).Ok? <==> Admits(s, CreateGroupE(who, id, name))
  {
    var at := IndexOf(s.groups, (g: Group) => g.id == id);
    if at.Some? {
      var i := at.value;
      assert s.groups[i] in s.groups;
      forall g | g in s.groups && g.id == id ensures g == s.groups[i] {
        var j :| 0 <= j < |s.groups| && s.groups[j] == g;
        if i != j { GroupsDiffer(env, s, i, j); }
      }
    }
  }

  /** Exactly: registering, an operator's action and creating a group go through if and only if they are admitted. */
  lemma OthersGoThrough(env: Env, s: State, e: Event)
    requires WellFormed(env, s) && (e.RegisterE? || e.OperateE? || e.CreateGroupE?)
    ensures Apply(env, s, e).Ok? <==> Admits(s, e)
  {
    match e
    case OperateE(action, subject, expected) => OperateAdmits(s, action, subject, expected);
    case CreateGroupE(who, id, name) => CreateAdmits(env, s, who, id, name);
    case RegisterE(_, _, _, _, _) => {}
  }

  /** The live group that was first to issue this token, and the invitation in it. */
  predicate Issued(s: State, i: nat, k: nat, token: Id) {
    && i < |s.groups| && k < |s.groups[i].invitations| && InvitedGroup(s, token) == Some(i)
    && FindInvitation(s.groups[i], token) == Some(k)
  }

  /** Exactly: an invitation is accepted by the approved holder of its address before it runs out, once and while
      there is room; sent again, it goes through for whoever accepted it and is still a member. */
  lemma AcceptGoesThrough(s: State, who: Id, token: Id, inbox: Option<Id>, now: nat)
    ensures Accept(s, who, token, inbox, now).Ok? <==>
              IsApproved(s.accounts, who)
              && exists i: nat, k: nat :: Issued(s, i, k, token)
                   && var g, v := s.groups[i], s.groups[i].invitations[k];
                      && (inbox.None? || inbox.value == g.id) && EmailOf(s.accounts, who) == Some(v.recipientHash)
                      && now < v.expiresAt
                      && if v.acceptedBy.Some? then v.acceptedBy.value == who && who in g.members
                         else |g.members| < MAX_MEMBERS
  {
    var at := InvitedGroup(s, token);
    if at.Some? { assert Issued(s, at.value, FindInvitation(s.groups[at.value], token).value, token); }
  }

  // ----- the fence of a creation

  /** The group still has the members and the version of the attempt, and the attempt's draft and decision are live. */
  ghost predicate StillGood(s: State, g: Group, a: Attempt) {
    && g.version == a.groupVersion && |g.members| == |a.members|
    && (forall k :: 0 <= k < |a.members| ==>
          a.members[k].subject in g.members && IsApproved(s.accounts, a.members[k].subject))
    && (exists b :: HasBinding(g, b) && b.id == a.decisionId && !b.deleted)
    && exists d :: HasDraft(g, d) && d.id == a.draftId && !d.deleted
  }

  lemma FenceSuits(s: State, i: nat, who: Id, a: Attempt)
    requires OrganizedGroup(s, who, a.groupId) == Ok(i)
    ensures CreationFence(s, who, a).Ok? <==> StillGood(s, s.groups[i], a)
  {
    var g := s.groups[i];
    if CreationFence(s, who, a).Ok? {
      var k :| 0 <= k < |g.decisions| && g.decisions[k].id == a.decisionId && !g.decisions[k].deleted;
      assert HasBinding(g, g.decisions[k]);
      var l :| 0 <= l < |g.drafts| && g.drafts[l].id == a.draftId && !g.drafts[l].deleted;
      assert HasDraft(g, g.drafts[l]);
    }
  }

  /** Exactly: the fence lets a creation pass if and only if the caller is still the approved organizer, every member of
      the attempt is still an approved member, nobody has joined or left since, and neither the draft nor the decision
      has been removed. */
  lemma FenceExactly(env: Env, s: State, who: Id, a: Attempt)
    requires WellFormed(env, s)
    ensures CreationFence(s, who, a).Ok? <==>
              exists i: nat :: Organizes(s, i, who, a.groupId) && StillGood(s, s.groups[i], a)
  {
    var at := OrganizedGroup(s, who, a.groupId);
    if at.Ok? {
      OrganizerFound(env, s, at.value, who, a.groupId);
      forall j: nat | Organizes(s, j, who, a.groupId) ensures j == at.value {
        OrganizerFound(env, s, j, who, a.groupId);
      }
      FenceSuits(s, at.value, who, a);
    } else {
      forall j: nat ensures !Organizes(s, j, who, a.groupId) { OrganizerFound(env, s, j, who, a.groupId); }
    }
  }
}
