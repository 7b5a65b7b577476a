/** What each transaction leaves alone. */
module GroupFrames {
  import opened Prelude
  import opened GroupState
  import opened GroupTransitions
  import opened GroupInvariant
  import opened GroupHistory

  predicate KeepsNames(e: Event, g: Group, g': Group) {
    && (e.RenameE? || (g'.name == g.name && |g'.decisions| >= |g.decisions|
                       && forall k :: 0 <= k < |g.decisions| ==> g'.decisions[k].title == g.decisions[k].title))
  }

  predicate KeepsPeople(e: Event, g: Group, g': Group) {
    && (e.AcceptE? || e.RemoveE? || g'.members == g.members)
    && (e.AcceptE? || e.InviteE? || g'.invitations == g.invitations)
    && (e.AcceptE? || e.RemoveE? || e.DeleteGroupE? || g'.version == g.version)
    && (e.DeleteGroupE? || g'.deleted == g.deleted)
    && g'.id == g.id && g'.organizer == g.organizer
  }

  predicate KeepsItems(e: Event, g: Group, g': Group) {
    && (e.SaveDraftE? || e.EditE? || e.ReserveE? || e.RemoveItemE? || e.DeleteGroupE? || g'.drafts == g.drafts)
    && (e.AcceptE? || e.RenameE? || e.RemoveItemE? || e.DeleteGroupE? || e.BindDecisionE? || e.ReserveE? || e.RebindE?
        || g'.decisions == g.decisions)
  }

  /** A transaction changes in a group only what it is about. */
  predicate Keeps(e: Event, g: Group, g': Group) {
    KeepsNames(e, g, g') && KeepsPeople(e, g, g') && KeepsItems(e, g, g')
  }

  /** Only the accounts, or only one group, are changed, and that group only where the transaction is about it. */
  predicate Local(s: State, e: Event, next: State) {
    && (e.RegisterE? || e.OperateE? || next.accounts == s.accounts)
    && |next.groups| == |s.groups| + (if e.CreateGroupE? && next != s then 1 else 0)
    && (e.CreateGroupE? ==> forall j :: 0 <= j < |s.groups| ==> next.groups[j] == s.groups[j])
    && (e.RegisterE? || e.OperateE? ==> next.groups == s.groups)
    && (!e.CreateGroupE? ==> forall j :: 0 <= j < |s.groups| ==>
          next.groups[j] == s.groups[j] || Keeps(e, s.groups[j], next.groups[j]))
    && forall j, k :: 0 <= j < k < |s.groups| ==> next.groups[j] == s.groups[j] || next.groups[k] == s.groups[k]
  }

  lemma PutIsLocal(s: State, e: Event, i: nat, g: Group)
    requires i < |s.groups| && Keeps(e, s.groups[i], g)
    requires !e.CreateGroupE? && !e.RegisterE? && !e.OperateE?
    ensures Local(s, e, Put(s, i, g))
  {
  }

  lemma Unchanged(s: State, e: Event)
    ensures Local(s, e, s)
  {
  }

  lemma AcceptIsLocal(env: Env, s: State, e: Event)
    requires e.AcceptE? && Apply(env, s, e).Ok?
    ensures Local(s, e, Apply(env, s, e).value)
  {
    var i := InvitedGroup(s, e.token).value;
    var g := s.groups[i];
    Unchanged(s, e);
    if g.invitations[FindInvitation(g, e.token).value].acceptedBy.None? {
      PutIsLocal(s, e, i, Apply(env, s, e).value.groups[i]);
    }
  }

  lemma PeopleAreLocal(env: Env, s: State, e: Event)
    requires (e.InviteE? || e.RemoveE? || e.RenameE?) && Apply(env, s, e).Ok?
    ensures Local(s, e, Apply(env, s, e).value)
  {
    var i := OrganizedGroup(s, e.who, e.id).value;
    PutIsLocal(s, e, i, Apply(env, s, e).value.groups[i]);
  }

  lemma ItemsAreLocal(env: Env, s: State, e: Event)
    requires (e.RemoveItemE? || e.DeleteGroupE? || e.RebindE?) && Apply(env, s, e).Ok?
    ensures Local(s, e, Apply(env, s, e).value)
  {
    var i := OrganizedGroup(s, e.who, e.id).value;
    PutIsLocal(s, e, i, Apply(env, s, e).value.groups[i]);
  }

  lemma DraftsAreLocal(env: Env, s: State, e: Event)
    requires (e.BindDecisionE? || e.SaveDraftE? || e.EditE? || e.ReserveE?) && Apply(env, s, e).Ok?
    ensures Local(s, e, Apply(env, s, e).value)
  {
    var i := OrganizedGroup(s, e.who, e.id).value;
    Unchanged(s, e);
    if Apply(env, s, e).value != s { PutIsLocal(s, e, i, Apply(env, s, e).value.groups[i]); }
  }

  lemma AccountsAreLocal(env: Env, s: State, e: Event)
    requires (e.RegisterE? || e.OperateE? || e.CreateGroupE?) && Apply(env, s, e).Ok?
    ensures Local(s, e, Apply(env, s, e).value)
  {
  }

  /** Every transaction changes at most one group, and in it only what it is about: names change only by a renaming,
      members only by joining and removal, invitations only by inviting and joining, and so on. */
  lemma EveryStepIsLocal(env: Env, s: State, e: Event)
    ensures Local(s, e, Step(env, s, e))
  {
    if Apply(env, s, e).Err? { Unchanged(s, e); }
    else if e.AcceptE? { AcceptIsLocal(env, s, e); }
    else if e.InviteE? || e.RemoveE? || e.RenameE? { PeopleAreLocal(env, s, e); }
    else if e.RemoveItemE? || e.DeleteGroupE? || e.RebindE? { ItemsAreLocal(env, s, e); }
    else if e.RegisterE? || e.OperateE? || e.CreateGroupE? { AccountsAreLocal(env, s, e); }
    else { DraftsAreLocal(env, s, e); }
  }
}
