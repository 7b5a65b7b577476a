/** How a group may differ before and after one transaction, and what follows over whole runs. */
module GroupHistory {
  import opened Prelude
  import opened GroupState
  import opened GroupTransitions
  import opened GroupInvariant

  /** A binding keeps its version, unless it was live and current and moves with its group. */
  ghost predicate BindingFollows(g: Group, g': Group, b: Binding, b': Binding) {
    && b'.id == b.id
    && (b.deleted ==> b'.deleted)
    && (b'.version == b.version || (!b.deleted && b.version == g.version && b'.version == g'.version))
  }

  /** A draft keeps its identity; once it has created a decision it keeps its content too. */
  ghost predicate DraftFollows(d: Draft, d': Draft) {
    && d'.id == d.id
    && d'.groupVersion == d.groupVersion
    && (d.deleted ==> d'.deleted)
    && (d.created.Some? ==> d'.created == d.created && d'.frame == d.frame && d'.revision == d.revision)
  }

  ghost predicate NewBinding(env: Env, g: Group, e: Event, b: Binding) {
    (e.BindDecisionE? && e.id == g.id && b.id == e.bound)
    || (e.ReserveE? && e.id == g.id && b.id == env.decisionId(g.id, e.draftId))
  }

  ghost predicate Rebinds(e: Event, g: Group, decision: Id) {
    e.RebindE? && e.id == g.id && e.bound == decision
  }

  ghost predicate Evolves(env: Env, e: Event, g: Group, g': Group) {
    && g'.id == g.id && g'.organizer == g.organizer && (g.deleted ==> g'.deleted)
    && g'.version >= g.version
    && (g'.version == g.version ==> g'.members == g.members)
    && |g'.decisions| >= |g.decisions| && |g'.drafts| >= |g.drafts|
    && (forall k :: 0 <= k < |g.decisions| ==>
          BindingFollows(g, g', g.decisions[k], g'.decisions[k])
          || (Rebinds(e, g, g.decisions[k].id) && g'.decisions[k].id == g.decisions[k].id
              && (g.decisions[k].deleted ==> g'.decisions[k].deleted)))
    && (forall k :: |g.decisions| <= k < |g'.decisions| ==> NewBinding(env, g, e, g'.decisions[k]))
    && (forall k :: 0 <= k < |g.drafts| ==> DraftFollows(g.drafts[k], g'.drafts[k]))
  }

  ghost predicate StepEvolves(env: Env, s: State, e: Event, next: State) {
    && |next.groups| >= |s.groups|
    && (forall i :: 0 <= i < |s.groups| ==> Evolves(env, e, s.groups[i], next.groups[i]))
    && (forall i :: |s.groups| <= i < |next.groups| ==> next.groups[i].decisions == [] && next.groups[i].drafts == [])
  }

  lemma PutEvolves(env: Env, s: State, e: Event, i: nat, g: Group)
    requires i < |s.groups| && Evolves(env, e, s.groups[i], g)
    ensures StepEvolves(env, s, e, Put(s, i, g))
  {
  }

  lemma AcceptEvolves(env: Env, s: State, e: Event)
    requires e.AcceptE? && Apply(env, s, e).Ok?
    ensures StepEvolves(env, s, e, Apply(env, s, e).value)
  {
    var i := InvitedGroup(s, e.token).value;
    var g := s.groups[i];
    if g.invitations[FindInvitation(g, e.token).value].acceptedBy.None? {
      PutEvolves(env, s, e, i, Apply(env, s, e).value.groups[i]);
    }
  }

  /** A change of names, invitations or people alone. */
  lemma PeopleEvolve(env: Env, e: Event, g: Group, g': Group)
    requires g'.id == g.id && g'.organizer == g.organizer && (g.deleted ==> g'.deleted)
    requires g'.version >= g.version && (g'.version == g.version ==> g'.members == g.members)
    requires g'.decisions == g.decisions && g'.drafts == g.drafts
    ensures Evolves(env, e, g, g')
  {
  }

  lemma BindingEvolves(env: Env, e: Event, g: Group, k: nat, b: Binding)
    requires k < |g.decisions| && b.id == g.decisions[k].id && (g.decisions[k].deleted ==> b.deleted)
    requires b.version == g.decisions[k].version || Rebinds(e, g, b.id)
    ensures Evolves(env, e, g, g.(decisions := g.decisions[k := b]))
  {
    var g' := g.(decisions := g.decisions[k := b]);
    assert forall j :: 0 <= j < |g.decisions| && j != k ==> g'.decisions[j] == g.decisions[j];
  }

  lemma NewBindingEvolves(env: Env, e: Event, g: Group, b: Binding)
    requires NewBinding(env, g, e, b)
    ensures Evolves(env, e, g, g.(decisions := g.decisions + [b]))
  {
  }

  lemma DraftsEvolve(env: Env, e: Event, g: Group, drafts: seq<Draft>)
    requires |drafts| >= |g.drafts| && forall k :: 0 <= k < |g.drafts| ==> DraftFollows(g.drafts[k], drafts[k])
    ensures Evolves(env, e, g, g.(drafts := drafts))
  {
  }

  lemma SaveDraftEvolves(env: Env, s: State, e: Event)
    requires e.SaveDraftE? && Apply(env, s, e).Ok?
    ensures StepEvolves(env, s, e, Apply(env, s, e).value)
  {
    var i := OrganizedGroup(s, e.who, e.id).value;
    var g' := Apply(env, s, e).value.groups[i];
    DraftsEvolve(env, e, s.groups[i], g'.drafts);
    PutEvolves(env, s, e, i, g');
  }

  lemma EditEvolves(env: Env, s: State, e: Event)
    requires e.EditE? && Apply(env, s, e).Ok?
    ensures StepEvolves(env, s, e, Apply(env, s, e).value)
  {
    var i := OrganizedGroup(s, e.who, e.id).value;
    var g' := Apply(env, s, e).value.groups[i];
    DraftsEvolve(env, e, s.groups[i], g'.drafts);
    PutEvolves(env, s, e, i, g');
  }

  lemma ReserveEvolves(env: Env, s: State, e: Event)
    requires e.ReserveE? && Apply(env, s, e).Ok?
    ensures StepEvolves(env, s, e, Apply(env, s, e).value)
  {
    var i := OrganizedGroup(s, e.who, e.id).value;
    PutEvolves(env, s, e, i, Apply(env, s, e).value.groups[i]);
  }

  lemma RenameEvolves(env: Env, s: State, e: Event)
    requires e.RenameE? && Apply(env, s, e).Ok?
    ensures StepEvolves(env, s, e, Apply(env, s, e).value)
  {
    var i := OrganizedGroup(s, e.who, e.id).value;
    var g := s.groups[i];
    if e.decision.None? {
      PeopleEvolve(env, e, g, g.(name := e.name));
      PutEvolves(env, s, e, i, g.(name := e.name));
    } else {
      var k := IndexOf(g.decisions, (b: Binding) => b.id == e.decision.value && !b.deleted).value;
      BindingEvolves(env, e, g, k, g.decisions[k].(title := Some(e.name)));
      PutEvolves(env, s, e, i, g.(decisions := g.decisions[k := g.decisions[k].(title := Some(e.name))]));
    }
  }

  lemma BindEvolves(env: Env, s: State, e: Event)
    requires e.BindDecisionE? && Apply(env, s, e).Ok?
    ensures StepEvolves(env, s, e, Apply(env, s, e).value)
  {
    var i := OrganizedGroup(s, e.who, e.id).value;
    var g := s.groups[i];
    if FindBinding(g.decisions, e.bound).None? {
      NewBindingEvolves(env, e, g, Binding(e.bound, e.version, None, false));
      PutEvolves(env, s, e, i, g.(decisions := g.decisions + [Binding(e.bound, e.version, None, false)]));
    }
  }

  lemma RemoveItemEvolves(env: Env, s: State, e: Event)
    requires e.RemoveItemE? && Apply(env, s, e).Ok?
    ensures StepEvolves(env, s, e, Apply(env, s, e).value)
  {
    var i := OrganizedGroup(s, e.who, e.id).value;
    PutEvolves(env, s, e, i, Apply(env, s, e).value.groups[i]);
  }

  lemma RebindEvolves(env: Env, s: State, e: Event)
    requires e.RebindE? && Apply(env, s, e).Ok?
    ensures StepEvolves(env, s, e, Apply(env, s, e).value)
  {
    var i := OrganizedGroup(s, e.who, e.id).value;
    var g := s.groups[i];
    var k := FindBinding(g.decisions, e.bound).value;
    BindingEvolves(env, e, g, k, g.decisions[k].(version := g.version));
    PutEvolves(env, s, e, i, g.(decisions := g.decisions[k := g.decisions[k].(version := g.version)]));
  }

  lemma InviteEvolves(env: Env, s: State, e: Event)
    requires (e.InviteE? || e.RemoveE?) && Apply(env, s, e).Ok?
    ensures StepEvolves(env, s, e, Apply(env, s, e).value)
  {
    var i := OrganizedGroup(s, e.who, e.id).value;
    var g' := Apply(env, s, e).value.groups[i];
    PeopleEvolve(env, e, s.groups[i], g');
    PutEvolves(env, s, e, i, g');
  }

  lemma DeleteEvolves(env: Env, s: State, e: Event)
    requires e.DeleteGroupE? && Apply(env, s, e).Ok?
    ensures StepEvolves(env, s, e, Apply(env, s, e).value)
  {
    var i := OrganizedGroup(s, e.who, e.id).value;
    PutEvolves(env, s, e, i, Apply(env, s, e).value.groups[i]);
  }

  /** Groups stay as they are, except that one without bindings or drafts may be new. */
  lemma AccountEvolves(env: Env, s: State, e: Event)
    requires (e.RegisterE? || e.OperateE? || e.CreateGroupE?) && Apply(env, s, e).Ok?
    ensures StepEvolves(env, s, e, Apply(env, s, e).value)
  {
    forall i | 0 <= i < |s.groups| { PeopleEvolve(env, e, s.groups[i], s.groups[i]); }
  }

  lemma RefusedEvolves(env: Env, s: State, e: Event)
    ensures StepEvolves(env, s, e, s)
  {
    forall i | 0 <= i < |s.groups| { PeopleEvolve(env, e, s.groups[i], s.groups[i]); }
  }

  lemma ApplyEvolves(env: Env, s: State, e: Event)
    requires Apply(env, s, e).Ok?
    ensures StepEvolves(env, s, e, Apply(env, s, e).value)
  {
    if e.AcceptE? { AcceptEvolves(env, s, e); }
    else if e.SaveDraftE? { SaveDraftEvolves(env, s, e); }
    else if e.EditE? { EditEvolves(env, s, e); }
    else if e.ReserveE? { ReserveEvolves(env, s, e); }
    else if e.RenameE? { RenameEvolves(env, s, e); }
    else if e.RemoveItemE? { RemoveItemEvolves(env, s, e); }
    else if e.BindDecisionE? { BindEvolves(env, s, e); }
    else if e.RebindE? { RebindEvolves(env, s, e); }
    else if e.InviteE? || e.RemoveE? { InviteEvolves(env, s, e); }
    else if e.DeleteGroupE? { DeleteEvolves(env, s, e); }
    else { AccountEvolves(env, s, e); }
  }

  /** Any transaction changes any group only as Evolves allows. */
  lemma EveryStepEvolves(env: Env, s: State, e: Event)
    ensures StepEvolves(env, s, e, Step(env, s, e))
  {
    if Apply(env, s, e).Ok? { ApplyEvolves(env, s, e); } else { RefusedEvolves(env, s, e); }
  }

  // ----- who is authorised

  /** The group an authorization consults is found again by its identifier. */
  lemma GroupOfSelected(env: Env, s: State, who: Id, i: nat)
    requires WellFormed(env, s) && i < |s.groups| && !s.groups[i].deleted && IsApproved(s.accounts, who)
    ensures GroupOf(s, who, s.groups[i].id) == if who in s.groups[i].members then Ok(i) else Err(NotFound)
  {
    forall k | 0 <= k < |s.groups| && k != i ensures s.groups[k].id != s.groups[i].id {
      if k < i {
        assert DifferentGroups(s.groups[k], s.groups[i]);
      } else {
        assert DifferentGroups(s.groups[i], s.groups[k]);
      }
    }
  }

  /** A participant is let through exactly as an approved member of a live group whose binding is current. */
  lemma AuthorizeExactly(env: Env, s: State, who: Id, decision: Id)
    requires WellFormed(env, s)
    ensures Authorize(s, Participant(who), decision).Ok? <==>
              && IsApproved(s.accounts, who)
              && (BindingGroup(s, decision).Some? ==>
                    var g := s.groups[BindingGroup(s, decision).value];
                    !g.deleted && who in g.members && Current(g, decision))
  {
    var at := BindingGroup(s, decision);
    if IsApproved(s.accounts, who) && at.Some? && !s.groups[at.value].deleted {
      GroupOfSelected(env, s, who, at.value);
    }
  }

  lemma GroupsDiffer(env: Env, s: State, i: nat, j: nat)
    requires WellFormed(env, s) && i < |s.groups| && j < |s.groups| && i != j
    ensures s.groups[i].id != s.groups[j].id
  {
    if i < j {
      assert DifferentGroups(s.groups[i], s.groups[j]);
    } else {
      assert DifferentGroups(s.groups[j], s.groups[i]);
    }
  }

  // ----- joining and rebinding

  /** Joining carries exactly the current bindings forward; it revives nothing. */
  lemma AcceptCarriesCurrent(env: Env, s: State, who: Id, token: Id, inbox: Option<Id>, now: nat, decision: Id)
    requires WellFormed(env, s) && Accept(s, who, token, inbox, now).Ok?
    ensures var i := InvitedGroup(s, token).value;
            var g, g' := s.groups[i], Accept(s, who, token, inbox, now).value.groups[i];
            && (Current(g', decision) <==> Current(g, decision))
            && who in g'.members
            && (forall m :: m in g'.members <==> m in g.members || m == who)
  {
    var i := InvitedGroup(s, token).value;
    var g, g' := s.groups[i], Accept(s, who, token, inbox, now).value.groups[i];
    BindsFollow(g, g');
    var found := FindBinding(g.decisions, decision);
    if found.Some? { assert g.decisions[found.value].version <= g.version; }
  }

  /** What accepting leaves alone: accounts, other groups, and everything about the group but its people and
      versions. */
  lemma AcceptShape(s: State, who: Id, token: Id, inbox: Option<Id>, now: nat)
    requires Accept(s, who, token, inbox, now).Ok?
    ensures var i := InvitedGroup(s, token).value;
            var next := Accept(s, who, token, inbox, now).value;
            && IsApproved(s.accounts, who)
            && next.accounts == s.accounts && |next.groups| == |s.groups|
            && (forall j :: 0 <= j < |s.groups| && j != i ==> next.groups[j] == s.groups[j])
            && !s.groups[i].deleted && !next.groups[i].deleted
            && |next.groups[i].decisions| == |s.groups[i].decisions|
            && forall k :: 0 <= k < |s.groups[i].decisions| ==>
              next.groups[i].decisions[k].id == s.groups[i].decisions[k].id
  {
  }

  /** A person who joins is at once authorised for every current decision of the group, and nobody loses access. */
  lemma JoiningGrants(env: Env, s: State, who: Id, token: Id, inbox: Option<Id>, now: nat, decision: Id, other: Id)
    requires WellFormed(env, s) && Accept(s, who, token, inbox, now).Ok?
    requires BindingGroup(s, decision) == Some(InvitedGroup(s, token).value)
    ensures var next := Accept(s, who, token, inbox, now).value;
            && (Authorize(next, Participant(who), decision).Ok? <==>
                  Current(s.groups[InvitedGroup(s, token).value], decision))
            && (other != who ==> (Authorize(next, Participant(other), decision).Ok? <==>
                                    Authorize(s, Participant(other), decision).Ok?))
  {
    var i := InvitedGroup(s, token).value;
    var next := Accept(s, who, token, inbox, now).value;
    AcceptKeeps(env, s, who, token, inbox, now);
    AcceptCarriesCurrent(env, s, who, token, inbox, now, decision);
    AcceptShape(s, who, token, inbox, now);
    SameSelection(s, next, i, decision);
    JoinedAuthorize(env, s, next, i, who, decision, other);
  }

  lemma JoinedAuthorize(env: Env, s: State, next: State, i: nat, who: Id, decision: Id, other: Id)
    requires WellFormed(env, s) && WellFormed(env, next) && next.accounts == s.accounts && IsApproved(s.accounts, who)
    requires BindingGroup(s, decision) == Some(i) && BindingGroup(next, decision) == Some(i)
    requires !s.groups[i].deleted && !next.groups[i].deleted
    requires Current(next.groups[i], decision) <==> Current(s.groups[i], decision)
    requires forall m :: m in next.groups[i].members <==> m in s.groups[i].members || m == who
    ensures Authorize(next, Participant(who), decision).Ok? <==> Current(s.groups[i], decision)
    ensures other != who ==>
              (Authorize(next, Participant(other), decision).Ok? <==> Authorize(s, Participant(other), decision).Ok?)
  {
    AuthorizeExactly(env, s, other, decision);
    AuthorizeExactly(env, next, other, decision);
    AuthorizeExactly(env, next, who, decision);
  }

  lemma SameSelection(s: State, next: State, i: nat, decision: Id)
    requires |next.groups| == |s.groups| && i < |s.groups| && BindingGroup(s, decision) == Some(i)
    requires forall j :: 0 <= j < |s.groups| && j != i ==> next.groups[j] == s.groups[j]
    requires |next.groups[i].decisions| == |s.groups[i].decisions|
    requires forall k :: 0 <= k < |s.groups[i].decisions| ==>
               next.groups[i].decisions[k].id == s.groups[i].decisions[k].id
    ensures BindingGroup(next, decision) == Some(i)
  {
    BindsFollow(s.groups[i], next.groups[i]);
    assert Binds(next.groups[i], decision);
  }

  /** After a rebind the decision is current in that group. */
  lemma ReboundIsCurrent(s: State, who: Id, id: Id, decision: Id, preview: nat, version: nat, roster: seq<Id>)
    requires Rebind(s, who, id, decision, preview, version, roster).Ok?
    ensures var i := OrganizedGroup(s, who, id).value;
            var next := Rebind(s, who, id, decision, preview, version, roster).value;
            i < |next.groups| && Current(next.groups[i], decision)
  {
    var i := OrganizedGroup(s, who, id).value;
    BindsFollow(s.groups[i], Rebind(s, who, id, decision, preview, version, roster).value.groups[i]);
  }

  /** After a rebind exactly the approved members are authorised for the decision. */
  lemma RebindRestores(env: Env, s: State, who: Id, id: Id, decision: Id, preview: nat, version: nat,
                       roster: seq<Id>, other: Id)
    requires WellFormed(env, s) && Rebind(s, who, id, decision, preview, version, roster).Ok?
    requires BindingGroup(s, decision) == Some(OrganizedGroup(s, who, id).value)
    ensures var next := Rebind(s, who, id, decision, preview, version, roster).value;
            Authorize(next, Participant(other), decision).Ok? <==>
              IsApproved(s.accounts, other) && other in s.groups[OrganizedGroup(s, who, id).value].members
  {
    var i := OrganizedGroup(s, who, id).value;
    var next := Rebind(s, who, id, decision, preview, version, roster).value;
    RebindKeeps(env, s, who, id, decision, preview, version, roster);
    SameSelection(s, next, i, decision);
    BindsFollow(s.groups[i], next.groups[i]);
    AuthorizeExactly(env, next, other, decision);
  }

  // ----- leaving and returning

  /** A registered outsider to whom no unaccepted invitation of the group is addressed. */
  ghost predicate Outside(s: State, i: nat, who: Id, email: Id) {
    && i < |s.groups|
    && EmailOf(s.accounts, who) == Some(email)
    && who !in s.groups[i].members
    && forall v :: v in s.groups[i].invitations && v.acceptedBy.None? ==> v.recipientHash != email
  }

  ghost predicate Invites(e: Event, id: Id, email: Id) {
    e.InviteE? && e.id == id && e.recipient == email
  }

  /** Whoever joins held an open invitation, and open invitations come from inviting. */
  ghost predicate PeopleFollow(accounts: seq<Account>, e: Event, g: Group, g': Group) {
    && (forall m :: m in g'.members ==> m in g.members || HeldInvitation(accounts, g, m))
    && (forall v :: v in g'.invitations && v.acceptedBy.None? ==>
          v in g.invitations || Invites(e, g.id, v.recipientHash))
  }

  ghost predicate HeldInvitation(accounts: seq<Account>, g: Group, who: Id) {
    exists v :: v in g.invitations && v.acceptedBy.None? && EmailOf(accounts, who) == Some(v.recipientHash)
  }

  lemma AcceptPeople(env: Env, s: State, e: Event, i: nat)
    requires e.AcceptE? && i < |s.groups|
    ensures PeopleFollow(s.accounts, e, s.groups[i], Step(env, s, e).groups[i])
  {
    if Apply(env, s, e).Ok? && InvitedGroup(s, e.token) == Some(i) {
      var g := s.groups[i];
      var v := g.invitations[FindInvitation(g, e.token).value];
      assert v in g.invitations;
    }
  }

  lemma InvitePeople(env: Env, s: State, e: Event, i: nat)
    requires e.InviteE? && i < |s.groups|
    ensures PeopleFollow(s.accounts, e, s.groups[i], Step(env, s, e).groups[i])
  {
  }

  lemma RenamePeople(env: Env, s: State, e: Event, i: nat)
    requires (e.RenameE? || e.BindDecisionE?) && i < |s.groups|
    ensures PeopleFollow(s.accounts, e, s.groups[i], Step(env, s, e).groups[i])
  {
  }

  lemma ItemPeople(env: Env, s: State, e: Event, i: nat)
    requires (e.RemoveItemE? || e.RebindE?) && i < |s.groups|
    ensures PeopleFollow(s.accounts, e, s.groups[i], Step(env, s, e).groups[i])
  {
  }

  lemma DraftPeople(env: Env, s: State, e: Event, i: nat)
    requires (e.SaveDraftE? || e.EditE? || e.ReserveE?) && i < |s.groups|
    ensures PeopleFollow(s.accounts, e, s.groups[i], Step(env, s, e).groups[i])
  {
  }

  lemma LeavingPeople(env: Env, s: State, e: Event, i: nat)
    requires (e.RemoveE? || e.DeleteGroupE? || e.RegisterE? || e.OperateE? || e.CreateGroupE?) && i < |s.groups|
    ensures PeopleFollow(s.accounts, e, s.groups[i], Step(env, s, e).groups[i])
  {
  }

  lemma EveryStepPeople(env: Env, s: State, e: Event, i: nat)
    requires i < |s.groups|
    ensures |Step(env, s, e).groups| >= |s.groups|
    ensures PeopleFollow(s.accounts, e, s.groups[i], Step(env, s, e).groups[i])
  {
    EveryStepEvolves(env, s, e);
    match e
    case AcceptE(_, _, _, _) => AcceptPeople(env, s, e, i);
    case InviteE(_, _, _, _, _, _) => InvitePeople(env, s, e, i);
    case SaveDraftE(_, _, _, _, _, _, _, _, _) => DraftPeople(env, s, e, i);
    case EditE(_, _, _, _, _, _, _, _) => DraftPeople(env, s, e, i);
    case ReserveE(_, _, _, _, _) => DraftPeople(env, s, e, i);
    case RenameE(_, _, _, _, _, _) => RenamePeople(env, s, e, i);
    case RemoveItemE(_, _, _, _, _) => ItemPeople(env, s, e, i);
    case BindDecisionE(_, _, _, _) => RenamePeople(env, s, e, i);
    case RebindE(_, _, _, _, _, _) => ItemPeople(env, s, e, i);
    case RemoveE(_, _, _, _) => LeavingPeople(env, s, e, i);
    case DeleteGroupE(_, _, _) => LeavingPeople(env, s, e, i);
    case RegisterE(_, _, _, _, _) => LeavingPeople(env, s, e, i);
    case OperateE(_, _, _) => LeavingPeople(env, s, e, i);
    case CreateGroupE(_, _, _) => LeavingPeople(env, s, e, i);
  }

  lemma EmailStays(env: Env, s: State, e: Event, who: Id)
    requires WellFormed(env, s) && EmailOf(s.accounts, who).Some?
    ensures EmailOf(Step(env, s, e).accounts, who) == EmailOf(s.accounts, who)
  {
    if Apply(env, s, e).Ok? {
      match e
      case RegisterE(p, verified, emailHash, name, username) =>
        RegisterKeeps(env, s, p, verified, emailHash, name, username);
        FindAccountIs(Step(env, s, e).accounts, FindAccount(s.accounts, who).value);
      case OperateE(action, subject, expected) =>
        OperateKeeps(env, s, action, subject, expected);
        FindAccountIs(Step(env, s, e).accounts, FindAccount(s.accounts, who).value);
      case _ => AccountsStay(env, s, e);
    }
  }

  lemma PeopleEventAccounts(env: Env, s: State, e: Event)
    requires e.CreateGroupE? || e.InviteE? || e.AcceptE? || e.RemoveE? || e.DeleteGroupE?
    ensures Step(env, s, e).accounts == s.accounts
  {
  }

  lemma ItemEventAccounts(env: Env, s: State, e: Event)
    requires e.RenameE? || e.RemoveItemE? || e.BindDecisionE? || e.RebindE?
    ensures Step(env, s, e).accounts == s.accounts
  {
  }

  lemma DraftEventAccounts(env: Env, s: State, e: Event)
    requires e.SaveDraftE? || e.EditE? || e.ReserveE?
    ensures Step(env, s, e).accounts == s.accounts
  {
  }

  lemma AccountsStay(env: Env, s: State, e: Event)
    requires !e.RegisterE? && !e.OperateE?
    ensures Step(env, s, e).accounts == s.accounts
  {
    if e.SaveDraftE? || e.EditE? || e.ReserveE? { DraftEventAccounts(env, s, e); }
    else if e.RenameE? || e.RemoveItemE? || e.BindDecisionE? || e.RebindE? { ItemEventAccounts(env, s, e); }
    else { PeopleEventAccounts(env, s, e); }
  }

  lemma StepStaysOutside(env: Env, s: State, e: Event, i: nat, who: Id, email: Id)
    requires WellFormed(env, s) && Outside(s, i, who, email) && !Invites(e, s.groups[i].id, email)
    ensures Outside(Step(env, s, e), i, who, email)
  {
    EmailStays(env, s, e, who);
    EveryStepEvolves(env, s, e);
    EveryStepPeople(env, s, e, i);
  }

  lemma {:induction false} RunStaysOutside(env: Env, s: State, events: seq<Event>, i: nat, who: Id, email: Id)
    requires Injective(env) && AllAllowed(env, events) && WellFormed(env, s) && Outside(s, i, who, email)
    requires forall k :: 0 <= k < |events| ==> !Invites(events[k], s.groups[i].id, email)
    ensures Outside(Run(env, s, events), i, who, email) && Run(env, s, events).groups[i].id == s.groups[i].id
    decreases |events|
  {
    if events != [] {
      var next := Step(env, s, events[0]);
      assert !Invites(events[0], s.groups[i].id, email) && Allowed(env, events[0]);
      StepStaysOutside(env, s, events[0], i, who, email);
      StepKeeps(env, s, events[0]);
      EveryStepEvolves(env, s, events[0]);
      assert Evolves(env, events[0], s.groups[i], next.groups[i]);
      assert forall k :: 0 <= k < |events[1..]| ==> events[1..][k] == events[k + 1];
      RunStaysOutside(env, next, events[1..], i, who, email);
    }
  }

  /** The member a removal names: the first one whose public identifier is the given one. */
  function Leaver(env: Env, g: Group, member: Id): (r: Option<Id>)
    ensures r.Some? ==> r.value in g.members && env.memberId(r.value) == member
    ensures r.None? ==> forall m :: m in g.members ==> env.memberId(m) != member
  {
    match IndexOf(g.members, (m: Id) => env.memberId(m) == member)
    case None => None
    case Some(k) => Some(g.members[k])
  }

  lemma RemovedIsOutside(env: Env, s: State, who: Id, id: Id, member: Id, version: nat, target: Id)
    requires WellFormed(env, s) && Remove(env, s, who, id, member, version).Ok?
    requires Leaver(env, s.groups[OrganizedGroup(s, who, id).value], member) == Some(target)
    ensures var i := OrganizedGroup(s, who, id).value;
            EmailOf(s.accounts, target).Some?
            && Outside(Remove(env, s, who, id, member, version).value, i, target, EmailOf(s.accounts, target).value)
  {
    var g := s.groups[OrganizedGroup(s, who, id).value];
    assert target in g.members;
    forall v | v in g.invitations && v.acceptedBy.None? ensures v.recipientHash != EmailOf(s.accounts, target).value {
      assert InvitationOk(s.accounts, g, v);
    }
  }

  /** A removed person stays out along every run in which nobody invites that person again. */
  lemma RemovedStaysOut(env: Env, s: State, who: Id, id: Id, member: Id, version: nat, target: Id, events: seq<Event>)
    requires Injective(env) && AllAllowed(env, events) && WellFormed(env, s)
    requires Remove(env, s, who, id, member, version).Ok?
    requires Leaver(env, s.groups[OrganizedGroup(s, who, id).value], member) == Some(target)
    requires EmailOf(s.accounts, target).Some? ==>
               forall k :: 0 <= k < |events| ==> !Invites(events[k], id, EmailOf(s.accounts, target).value)
    ensures var i := OrganizedGroup(s, who, id).value;
            var last := Run(env, Remove(env, s, who, id, member, version).value, events);
            i < |last.groups| && last.groups[i].id == id && target !in last.groups[i].members
  {
    var next := Remove(env, s, who, id, member, version).value;
    RemoveKeeps(env, s, who, id, member, version);
    RemovedIsOutside(env, s, who, id, member, version, target);
    RunStaysOutside(env, next, events, OrganizedGroup(s, who, id).value, target, EmailOf(s.accounts, target).value);
  }
}
