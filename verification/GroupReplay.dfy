/** What happens when a transaction that went through is sent again, as a client does that saw no answer. */
module GroupReplay {
  import opened Prelude
  import opened GroupState
  import opened GroupTransitions
  import opened GroupInvariant

  /** Transactions that may be repeated: the second time they succeed and change nothing. */
  predicate Repeatable(e: Event) {
    e.RegisterE? || e.OperateE? || e.CreateGroupE? || e.AcceptE? || e.RenameE? || e.RemoveItemE? || e.BindDecisionE?
    || e.SaveDraftE? || e.ReserveE? || e.RebindE?
  }

  /** The same caller finds the same group after a change that keeps what the lookup looks at. */
  lemma FoundAgain(s: State, who: Id, id: Id, i: nat, g: Group)
    requires OrganizedGroup(s, who, id) == Ok(i)
    requires g.id == id && !g.deleted && who in g.members && g.organizer == who
    ensures OrganizedGroup(Put(s, i, g), who, id) == Ok(i)
  {
    var next := Put(s, i, g);
    assert forall k :: 0 <= k < i ==> next.groups[k] == s.groups[k];
    assert next.groups[i] == g;
  }

  lemma DraftFoundAgain(drafts: seq<Draft>, next: seq<Draft>, id: Id, k: nat)
    requires FindDraft(drafts, id) == Some(k) && |next| == |drafts|
    requires forall j :: 0 <= j < |drafts| ==> next[j].id == drafts[j].id
    ensures FindDraft(next, id) == Some(k)
  {
    forall j | 0 <= j < k ensures next[j].id != id { assert drafts[j].id != id; }
    assert next[k].id == id;
  }

  lemma BindingFoundAgain(decisions: seq<Binding>, next: seq<Binding>, id: Id, k: nat)
    requires FindBinding(decisions, id) == Some(k) && |next| == |decisions|
    requires forall j :: 0 <= j < |decisions| ==> next[j].id == decisions[j].id
    ensures FindBinding(next, id) == Some(k)
  {
    forall j | 0 <= j < k ensures next[j].id != id { assert decisions[j].id != id; }
    assert next[k].id == id;
  }

  lemma InvitationFoundAgain(g: Group, next: Group, token: Id, k: nat)
    requires FindInvitation(g, token) == Some(k) && |next.invitations| == |g.invitations|
    requires forall j :: 0 <= j < |g.invitations| ==> next.invitations[j].tokenHash == g.invitations[j].tokenHash
    ensures FindInvitation(next, token) == Some(k)
  {
    forall j | 0 <= j < k ensures next.invitations[j].tokenHash != token { assert g.invitations[j].tokenHash != token; }
    assert next.invitations[k].tokenHash == token;
  }

  lemma RegisterAgain(s: State, e: Event)
    requires e.RegisterE? && Register(s, e.who, e.verified, e.emailHash, e.name, e.username).Ok?
    ensures var next := Register(s, e.who, e.verified, e.emailHash, e.name, e.username).value;
            Register(next, e.who, e.verified, e.emailHash, e.name, e.username) == Ok(next)
  {
    var next := Register(s, e.who, e.verified, e.emailHash, e.name, e.username).value;
    if FindAccount(s.accounts, e.who).None? {
      assert next.accounts[|s.accounts|].subject == e.who;
    }
  }

  lemma OperateAgain(s: State, e: Event)
    requires e.OperateE? && Operate(s, e.action, e.subject, e.expected).Ok?
    ensures var next := Operate(s, e.action, e.subject, e.expected).value;
            Operate(next, e.action, e.subject, e.expected) == Ok(next)
  {
    var next := Operate(s, e.action, e.subject, e.expected).value;
    var i := FindAccount(s.accounts, e.subject).value;
    assert forall k :: 0 <= k < i ==> next.accounts[k] == s.accounts[k];
    assert next.accounts[i].subject == e.subject;
  }

  lemma CreateAgain(s: State, e: Event)
    requires e.CreateGroupE? && CreateGroup(s, e.who, e.id, e.name).Ok?
    ensures var next := CreateGroup(s, e.who, e.id, e.name).value; CreateGroup(next, e.who, e.id, e.name) == Ok(next)
  {
    var next := CreateGroup(s, e.who, e.id, e.name).value;
    if next != s { assert next.groups[|s.groups|].id == e.id; }
  }

  lemma AcceptAgain(s: State, e: Event)
    requires e.AcceptE? && Accept(s, e.who, e.token, e.inbox, e.now).Ok?
    ensures var next := Accept(s, e.who, e.token, e.inbox, e.now).value;
            Accept(next, e.who, e.token, e.inbox, e.now) == Ok(next)
  {
    var next := Accept(s, e.who, e.token, e.inbox, e.now).value;
    var i := InvitedGroup(s, e.token).value;
    var at := FindInvitation(s.groups[i], e.token).value;
    var g := next.groups[i];
    InvitationFoundAgain(s.groups[i], g, e.token, at);
    assert forall k :: 0 <= k < i ==> next.groups[k] == s.groups[k];
    assert InvitedGroup(next, e.token) == Some(i);
  }

  lemma RenameAgain(env: Env, s: State, e: Event)
    requires e.RenameE? && Apply(env, s, e).Ok?
    ensures Apply(env, Apply(env, s, e).value, e) == Ok(Apply(env, s, e).value)
  {
    var next := Apply(env, s, e).value;
    var i := OrganizedGroup(s, e.who, e.id).value;
    FoundAgain(s, e.who, e.id, i, next.groups[i]);
    var g := next.groups[i];
    if e.decision.Some? {
      var k := IndexOf(s.groups[i].decisions, (b: Binding) => b.id == e.decision.value && !b.deleted).value;
      assert forall j :: 0 <= j < k ==> g.decisions[j] == s.groups[i].decisions[j];
      assert g.decisions[k].title == Some(e.name) && g.decisions[k].id == e.decision.value && !g.decisions[k].deleted;
      assert IndexOf(g.decisions, (b: Binding) => b.id == e.decision.value && !b.deleted) == Some(k);
      assert g.decisions[k := g.decisions[k].(title := Some(e.name))] == g.decisions;
    }
    assert Put(next, i, g) == next;
  }

  lemma RemoveItemAgain(env: Env, s: State, e: Event)
    requires e.RemoveItemE? && Apply(env, s, e).Ok?
    ensures Apply(env, Apply(env, s, e).value, e) == Ok(Apply(env, s, e).value)
  {
    var next := Apply(env, s, e).value;
    var i := OrganizedGroup(s, e.who, e.id).value;
    var g := next.groups[i];
    FoundAgain(s, e.who, e.id, i, g);
    if e.kind == DraftItem {
      var k := FindDraft(s.groups[i].drafts, e.item).value;
      DraftFoundAgain(s.groups[i].drafts, g.drafts, e.item, k);
      assert g.drafts[k := g.drafts[k].(deleted := true)] == g.drafts;
    } else {
      var k := FindBinding(s.groups[i].decisions, e.item).value;
      BindingFoundAgain(s.groups[i].decisions, g.decisions, e.item, k);
      assert g.decisions[k := g.decisions[k].(deleted := true)] == g.decisions;
      assert Retired(g.drafts, (d: Draft) => d.created == Some(e.item)) == g.drafts;
    }
    assert Put(next, i, g) == next;
  }

  lemma BindAgain(env: Env, s: State, e: Event)
    requires e.BindDecisionE? && Apply(env, s, e).Ok?
    ensures Apply(env, Apply(env, s, e).value, e) == Ok(Apply(env, s, e).value)
  {
    var next := Apply(env, s, e).value;
    var i := OrganizedGroup(s, e.who, e.id).value;
    FoundAgain(s, e.who, e.id, i, next.groups[i]);
    if next != s {
      assert next.groups[i].decisions[|s.groups[i].decisions|].id == e.bound;
    }
  }

  lemma SaveAgain(env: Env, s: State, e: Event)
    requires e.SaveDraftE? && Apply(env, s, e).Ok?
    ensures Apply(env, Apply(env, s, e).value, e) == Ok(Apply(env, s, e).value)
  {
    var next := Apply(env, s, e).value;
    var i := OrganizedGroup(s, e.who, e.id).value;
    var g := s.groups[i];
    FoundAgain(s, e.who, e.id, i, next.groups[i]);
    if FindDraft(g.drafts, e.draftId).None? {
      assert next.groups[i].drafts[|g.drafts|].id == e.draftId;
      assert forall k :: 0 <= k < |g.drafts| ==> next.groups[i].drafts[k] == g.drafts[k];
    }
  }

  /** A repeated reservation also hands out the same attempt. */
  lemma ReserveAgain(env: Env, s: State, who: Id, id: Id, draftId: Id, revision: nat, enabled: bool)
    requires Reserve(env, s, who, id, draftId, revision, enabled).Ok?
    ensures var (next, attempt) := Reserve(env, s, who, id, draftId, revision, enabled).value;
            Reserve(env, next, who, id, draftId, revision, enabled) == Ok((next, attempt))
  {
    var next := Reserve(env, s, who, id, draftId, revision, enabled).value.0;
    var i := OrganizedGroup(s, who, id).value;
    var g, g' := s.groups[i], next.groups[i];
    FoundAgain(s, who, id, i, g');
    var k := FindDraft(g.drafts, draftId).value;
    DraftFoundAgain(g.drafts, g'.drafts, draftId, k);
    assert Put(next, i, g') == next;
  }

  lemma RebindAgain(env: Env, s: State, e: Event)
    requires e.RebindE? && Apply(env, s, e).Ok?
    ensures Apply(env, Apply(env, s, e).value, e) == Ok(Apply(env, s, e).value)
  {
    var next := Apply(env, s, e).value;
    var i := OrganizedGroup(s, e.who, e.id).value;
    var g := next.groups[i];
    FoundAgain(s, e.who, e.id, i, g);
    var k := FindBinding(s.groups[i].decisions, e.bound).value;
    BindingFoundAgain(s.groups[i].decisions, g.decisions, e.bound, k);
    assert g.decisions[k := g.decisions[k].(version := g.version)] == g.decisions;
    assert Put(next, i, g) == next;
  }

  /** Sent again, a repeatable transaction succeeds and leaves the state as it is. */
  lemma RepeatedSucceeds(env: Env, s: State, e: Event)
    requires Repeatable(e) && Apply(env, s, e).Ok?
    ensures Apply(env, Apply(env, s, e).value, e) == Ok(Apply(env, s, e).value)
  {
    match e
    case RegisterE(_, _, _, _, _) => RegisterAgain(s, e);
    case OperateE(_, _, _) => OperateAgain(s, e);
    case CreateGroupE(_, _, _) => CreateAgain(s, e);
    case AcceptE(_, _, _, _) => AcceptAgain(s, e);
    case RenameE(_, _, _, _, _, _) => RenameAgain(env, s, e);
    case RemoveItemE(_, _, _, _, _) => RemoveItemAgain(env, s, e);
    case BindDecisionE(_, _, _, _) => BindAgain(env, s, e);
    case SaveDraftE(_, _, _, _, _, _, _, _, _) => SaveAgain(env, s, e);
    case ReserveE(who, id, draftId, revision, enabled) => ReserveAgain(env, s, who, id, draftId, revision, enabled);
    case RebindE(_, _, _, _, _, _) => RebindAgain(env, s, e);
  }

  lemma InviteAgain(env: Env, s: State, e: Event)
    requires e.InviteE? && !e.replace && Apply(env, s, e).Ok?
    ensures Apply(env, Apply(env, s, e).value, e) == Err(StaleContext)
  {
    var next := Apply(env, s, e).value;
    var i := OrganizedGroup(s, e.who, e.id).value;
    var g := next.groups[i];
    FoundAgain(s, e.who, e.id, i, g);
    var last := |g.invitations| - 1;
    assert g.invitations[last].recipientHash == e.recipient && g.invitations[last].acceptedBy.None?;
  }

  lemma ChangeAgain(env: Env, s: State, e: Event)
    requires (e.EditE? || e.RemoveE?) && Apply(env, s, e).Ok?
    ensures Apply(env, Apply(env, s, e).value, e) == Err(StaleContext)
  {
    var next := Apply(env, s, e).value;
    var i := OrganizedGroup(s, e.who, e.id).value;
    var g := next.groups[i];
    FoundAgain(s, e.who, e.id, i, g);
    if e.EditE? {
      var k := FindDraft(s.groups[i].drafts, e.draftId).value;
      DraftFoundAgain(s.groups[i].drafts, g.drafts, e.draftId, k);
    }
  }

  lemma DeleteAgain(env: Env, s: State, e: Event)
    requires WellFormed(env, s) && e.DeleteGroupE? && Apply(env, s, e).Ok?
    ensures Apply(env, Apply(env, s, e).value, e) == Err(NotFound)
  {
    var next := Apply(env, s, e).value;
    var i := OrganizedGroup(s, e.who, e.id).value;
    forall k | 0 <= k < |next.groups| ensures !(next.groups[k].id == e.id && !next.groups[k].deleted) {
      if k < i { assert DifferentGroups(s.groups[k], s.groups[i]); }
      if k > i { assert DifferentGroups(s.groups[i], s.groups[k]); }
    }
  }

  /** Sent again, every other transaction refuses: its own first success has made it stale, or its group is gone. */
  lemma RepeatedRefuses(env: Env, s: State, e: Event)
    requires WellFormed(env, s) && !Repeatable(e) && (e.InviteE? ==> !e.replace) && Apply(env, s, e).Ok?
    ensures Apply(env, Apply(env, s, e).value, e) == Err(if e.DeleteGroupE? then NotFound else StaleContext)
  {
    match e
    case InviteE(_, _, _, _, _, _) => InviteAgain(env, s, e);
    case EditE(_, _, _, _, _, _, _, _) => ChangeAgain(env, s, e);
    case RemoveE(_, _, _, _) => ChangeAgain(env, s, e);
    case DeleteGroupE(_, _, _) => DeleteAgain(env, s, e);
  }
}
