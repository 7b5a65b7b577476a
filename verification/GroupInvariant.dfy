/** What every transaction keeps true of the stored group state. */
module GroupInvariant {
  import opened Prelude
  import opened GroupState
  import opened GroupTransitions

  predicate DifferentAccounts(a: Account, b: Account) {
    a.subject != b.subject && a.emailHash != b.emailHash
  }

  predicate DifferentGroups(a: Group, b: Group) { a.id != b.id }

  predicate DifferentRecipients(a: Invitation, b: Invitation) { a.recipientHash != b.recipientHash }

  predicate DifferentBindings(a: Binding, b: Binding) { a.id != b.id }

  predicate DifferentDrafts(a: Draft, b: Draft) { a.id != b.id }

  ghost predicate AccountsOk(accounts: seq<Account>) {
    |accounts| <= MAX_ACCOUNTS && Pairwise(accounts, DifferentAccounts)
  }

  /** Between one and sixteen distinct, registered members, the organizer among them. */
  ghost predicate MembersOk(accounts: seq<Account>, g: Group) {
    && 1 <= |g.members| <= MAX_MEMBERS
    && Distinct(g.members)
    && g.organizer in g.members
    && forall m :: m in g.members ==> EmailOf(accounts, m).Some?
  }

  /** An unaccepted invitation is addressed to nobody who is a member now. */
  ghost predicate InvitationOk(accounts: seq<Account>, g: Group, v: Invitation) {
    match v.acceptedBy
    case None => forall m :: m in g.members ==> EmailOf(accounts, m) != Some(v.recipientHash)
    case Some(w) => EmailOf(accounts, w) == Some(v.recipientHash)
  }

  ghost predicate InvitationsOk(accounts: seq<Account>, g: Group) {
    && |g.invitations| <= MAX_ITEMS
    && Pairwise(g.invitations, DifferentRecipients)
    && forall v :: v in g.invitations ==> InvitationOk(accounts, g, v)
  }

  ghost predicate BindingsOk(g: Group) {
    && |g.decisions| <= MAX_ITEMS
    && Pairwise(g.decisions, DifferentBindings)
    && forall k :: 0 <= k < |g.decisions| ==> g.decisions[k].version <= g.version
  }

  /** A draft names its own derived decision exactly when that decision is bound. */
  ghost predicate DraftOk(env: Env, g: Group, d: Draft) {
    && d.groupVersion <= g.version
    && (d.created.Some? ==> d.created.value == env.decisionId(g.id, d.id))
    && (d.created.Some? <==> Binds(g, env.decisionId(g.id, d.id)))
  }

  ghost predicate DraftsOk(env: Env, g: Group) {
    && |g.drafts| <= MAX_ITEMS
    && Pairwise(g.drafts, DifferentDrafts)
    && (forall k :: 0 <= k < |g.drafts| ==> DraftOk(env, g, g.drafts[k]))
  }

  ghost predicate GroupOk(env: Env, accounts: seq<Account>, g: Group) {
    MembersOk(accounts, g) && InvitationsOk(accounts, g) && BindingsOk(g) && DraftsOk(env, g)
  }

  /** A derived decision is bound only by the group it was derived from, for a draft that is there. */
  ghost predicate DerivedOk(env: Env, g: Group) {
    forall x, y :: Binds(g, env.decisionId(x, y)) ==> x == g.id && FindDraft(g.drafts, y).Some?
  }

  ghost predicate WellFormed(env: Env, s: State) {
    && AccountsOk(s.accounts)
    && |s.groups| <= MAX_GROUPS
    && Pairwise(s.groups, DifferentGroups)
    && (forall i :: 0 <= i < |s.groups| ==> GroupOk(env, s.accounts, s.groups[i]))
    && (forall i :: 0 <= i < |s.groups| ==> DerivedOk(env, s.groups[i]))
  }

  /** Distinct drafts have distinct decision identifiers. */
  ghost predicate Injective(env: Env) {
    forall a, b, x, y :: env.decisionId(a, b) == env.decisionId(x, y) ==> a == x && b == y
  }

  ghost predicate Derived(env: Env, decision: Id) {
    exists x, y :: env.decisionId(x, y) == decision
  }

  /** Nobody binds by hand an identifier that is derived from a draft. */
  ghost predicate Allowed(env: Env, e: Event) {
    e.BindDecisionE? ==> !Derived(env, e.bound)
  }

  const EMPTY: State := State([], [])

  // ----- accounts

  lemma FindAccountIs(accounts: seq<Account>, k: nat)
    requires AccountsOk(accounts) && k < |accounts|
    ensures FindAccount(accounts, accounts[k].subject) == Some(k)
  {
    forall j | 0 <= j < k ensures accounts[j].subject != accounts[k].subject {
      assert DifferentAccounts(accounts[j], accounts[k]);
    }
  }

  /** Later accounts keep everybody's email. */
  ghost predicate SamePeople(before: seq<Account>, after: seq<Account>) {
    forall who :: EmailOf(before, who).Some? ==> EmailOf(after, who) == EmailOf(before, who)
  }

  lemma PeopleKeepGroups(env: Env, s: State, after: seq<Account>)
    requires WellFormed(env, s) && AccountsOk(after) && SamePeople(s.accounts, after)
    ensures WellFormed(env, s.(accounts := after))
  {
    forall i | 0 <= i < |s.groups| ensures GroupOk(env, after, s.groups[i]) {
      var g := s.groups[i];
      forall v | v in g.invitations ensures InvitationOk(after, g, v) {
        assert InvitationOk(s.accounts, g, v);
      }
    }
  }

  lemma RegisterKeeps(env: Env, s: State, who: Id, verified: bool, emailHash: Id, name: string,
                      username: Option<string>)
    requires WellFormed(env, s) && Register(s, who, verified, emailHash, name, username).Ok?
    ensures WellFormed(env, Register(s, who, verified, emailHash, name, username).value)
  {
    if FindAccount(s.accounts, who).None? {
      var after := s.accounts + [Account(who, emailHash, name, Pending, 1, username)];
      assert AccountsOk(after);
      forall p | EmailOf(s.accounts, p).Some? ensures EmailOf(after, p) == EmailOf(s.accounts, p) {
        FindAccountIs(after, FindAccount(s.accounts, p).value);
      }
      PeopleKeepGroups(env, s, after);
    }
  }

  lemma OperateKeeps(env: Env, s: State, action: Action, subject: Id, expected: nat)
    requires WellFormed(env, s) && Operate(s, action, subject, expected).Ok?
    ensures WellFormed(env, Operate(s, action, subject, expected).value)
  {
    var after := Operate(s, action, subject, expected).value.accounts;
    assert forall k :: 0 <= k < |after| ==>
             after[k].subject == s.accounts[k].subject && after[k].emailHash == s.accounts[k].emailHash;
    assert Pairwise(after, DifferentAccounts) by {
      forall i, j | 0 <= i < j < |after| ensures DifferentAccounts(after[i], after[j]) {
        assert DifferentAccounts(s.accounts[i], s.accounts[j]);
      }
    }
    forall p | EmailOf(s.accounts, p).Some? ensures EmailOf(after, p) == EmailOf(s.accounts, p) {
      FindAccountIs(after, FindAccount(s.accounts, p).value);
    }
    PeopleKeepGroups(env, s, after);
    assert Operate(s, action, subject, expected).value == s.(accounts := after);
  }

  // ----- one group at a time

  lemma PutKeeps(env: Env, s: State, i: nat, g: Group)
    requires WellFormed(env, s) && i < |s.groups| && g.id == s.groups[i].id
    requires GroupOk(env, s.accounts, g) && DerivedOk(env, g)
    ensures WellFormed(env, Put(s, i, g))
  {
    var groups := s.groups[i := g];
    forall a, b | 0 <= a < b < |groups| ensures DifferentGroups(groups[a], groups[b]) {
      assert DifferentGroups(s.groups[a], s.groups[b]);
    }
  }

  lemma CreateGroupKeeps(env: Env, s: State, who: Id, id: Id, name: string)
    requires WellFormed(env, s) && CreateGroup(s, who, id, name).Ok?
    ensures WellFormed(env, CreateGroup(s, who, id, name).value)
  {
    if IndexOf(s.groups, (g: Group) => g.id == id).None? {
      var g := Group(id, name, who, 1, false, [who], [], [], []);
      assert GroupOk(env, s.accounts, g) && DerivedOk(env, g);
      var groups := s.groups + [g];
      forall a, b | 0 <= a < b < |groups| ensures DifferentGroups(groups[a], groups[b]) {
        if b < |s.groups| { assert DifferentGroups(s.groups[a], s.groups[b]); }
      }
    }
  }

  lemma InviteKeeps(env: Env, s: State, who: Id, id: Id, recipient: Id, replace: bool, token: Id, now: nat)
    requires WellFormed(env, s) && Invite(s, who, id, recipient, replace, token, now).Ok?
    ensures WellFormed(env, Invite(s, who, id, recipient, replace, token, now).value)
  {
    var i := OrganizedGroup(s, who, id).value;
    var g := s.groups[i];
    var kept := KeptInvitations(g, recipient, now);
    FilterPairwise(g.invitations, (v: Invitation) => v.recipientHash != recipient && v.expiresAt > now,
                   DifferentRecipients);
    var added := Invitation(recipient, token, now + INVITATION_MS, None);
    var g' := g.(invitations := kept + [added]);
    assert InvitationsOk(s.accounts, g') by {
      forall a, b | 0 <= a < b < |g'.invitations| ensures DifferentRecipients(g'.invitations[a], g'.invitations[b]) {
        assert g'.invitations[a] in kept;
        if b < |kept| { assert DifferentRecipients(kept[a], kept[b]); }
      }
      forall v | v in g'.invitations ensures InvitationOk(s.accounts, g', v) {
        if v in kept {
          assert InvitationOk(s.accounts, g, v);
        } else {
          assert v == added;
        }
      }
    }
    DraftsFollow(env, g, g');
    PutKeeps(env, s, i, g');
  }

  /** Drafts stay in order while they, the bindings' identifiers and the identity of the group stay the same. */
  lemma DraftsFollow(env: Env, g: Group, g': Group)
    requires DraftsOk(env, g) && DerivedOk(env, g)
    requires g'.id == g.id && g'.drafts == g.drafts && g'.version >= g.version
    requires |g'.decisions| == |g.decisions|
             && forall k :: 0 <= k < |g.decisions| ==> g'.decisions[k].id == g.decisions[k].id
    ensures DraftsOk(env, g') && DerivedOk(env, g')
  {
    BindsFollow(g, g');
    forall k | 0 <= k < |g'.drafts| ensures DraftOk(env, g', g'.drafts[k]) {
      assert DraftOk(env, g, g.drafts[k]);
    }
  }

  lemma BindsFollow(g: Group, g': Group)
    requires |g'.decisions| == |g.decisions|
             && forall k :: 0 <= k < |g.decisions| ==> g'.decisions[k].id == g.decisions[k].id
    ensures forall d :: FindBinding(g'.decisions, d) == FindBinding(g.decisions, d)
    ensures forall d :: Binds(g', d) == Binds(g, d)
  {
    forall d ensures FindBinding(g'.decisions, d) == FindBinding(g.decisions, d) {
      var a, b := FindBinding(g.decisions, d), FindBinding(g'.decisions, d);
      FirstBinding(g.decisions, d);
      FirstBinding(g'.decisions, d);
    }
  }

  /** The search really returns the first position. */
  lemma FirstBinding(decisions: seq<Binding>, id: Id)
    ensures var r := FindBinding(decisions, id);
            r.Some? ==> forall k :: 0 <= k < r.value ==> decisions[k].id != id
  {
  }

  lemma JoinedKeeps(env: Env, accounts: seq<Account>, g: Group, at: nat, who: Id)
    requires GroupOk(env, accounts, g) && DerivedOk(env, g) && at < |g.invitations|
    requires AccountsOk(accounts) && EmailOf(accounts, who) == Some(g.invitations[at].recipientHash)
    requires |g.members| < MAX_MEMBERS
    ensures var g' := Joined(g, who).(invitations := g.invitations[at := g.invitations[at].(acceptedBy := Some(who))]);
            GroupOk(env, accounts, g') && DerivedOk(env, g')
  {
    var v := g.invitations[at];
    var g' := Joined(g, who).(invitations := g.invitations[at := v.(acceptedBy := Some(who))]);
    DraftsFollow(env, g, g');
    assert InvitationsOk(accounts, g') by {
      forall a, b | 0 <= a < b < |g'.invitations| ensures DifferentRecipients(g'.invitations[a], g'.invitations[b]) {
        assert DifferentRecipients(g.invitations[a], g.invitations[b]);
      }
      forall k | 0 <= k < |g'.invitations| ensures InvitationOk(accounts, g', g'.invitations[k]) {
        var w := g.invitations[k];
        assert InvitationOk(accounts, g, w);
        if k != at {
          assert w.recipientHash != v.recipientHash by {
            if k < at { assert DifferentRecipients(w, v); } else { assert DifferentRecipients(v, w); }
          }
        }
      }
    }
  }

  lemma AcceptKeeps(env: Env, s: State, who: Id, token: Id, inbox: Option<Id>, now: nat)
    requires WellFormed(env, s) && Accept(s, who, token, inbox, now).Ok?
    ensures WellFormed(env, Accept(s, who, token, inbox, now).value)
  {
    var i := InvitedGroup(s, token).value;
    var g := s.groups[i];
    var at := FindInvitation(g, token).value;
    if g.invitations[at].acceptedBy.None? {
      JoinedKeeps(env, s.accounts, g, at, who);
      var accepted := g.invitations[at].(acceptedBy := Some(who));
      PutKeeps(env, s, i, Joined(g, who).(invitations := g.invitations[at := accepted]));
    }
  }

  /** Changing only a binding's title, deletion or version keeps the group in order. */
  lemma RebindingKeeps(env: Env, accounts: seq<Account>, g: Group, k: nat, b: Binding)
    requires GroupOk(env, accounts, g) && DerivedOk(env, g) && k < |g.decisions|
    requires b.id == g.decisions[k].id && b.version <= g.version
    ensures var g' := g.(decisions := g.decisions[k := b]); GroupOk(env, accounts, g') && DerivedOk(env, g')
  {
    var g' := g.(decisions := g.decisions[k := b]);
    DraftsFollow(env, g, g');
    forall a, c | 0 <= a < c < |g'.decisions| ensures DifferentBindings(g'.decisions[a], g'.decisions[c]) {
      assert DifferentBindings(g.decisions[a], g.decisions[c]);
    }
    assert forall v :: v in g.invitations ==> InvitationOk(accounts, g, v) ==> InvitationOk(accounts, g', v);
  }

  predicate SameLineage(a: Draft, b: Draft) {
    a.id == b.id && a.created == b.created && a.groupVersion == b.groupVersion
  }

  /** Drafts may change in anything but their identity and what they created. */
  lemma RedraftingKeeps(env: Env, accounts: seq<Account>, g: Group, drafts: seq<Draft>)
    requires GroupOk(env, accounts, g) && DerivedOk(env, g) && |drafts| == |g.drafts|
    requires forall k :: 0 <= k < |drafts| ==> SameLineage(drafts[k], g.drafts[k])
    ensures var g' := g.(drafts := drafts); GroupOk(env, accounts, g') && DerivedOk(env, g')
  {
    var g' := g.(drafts := drafts);
    forall a, b | 0 <= a < b < |drafts| ensures DifferentDrafts(drafts[a], drafts[b]) {
      assert DifferentDrafts(g.drafts[a], g.drafts[b]);
    }
    forall k | 0 <= k < |drafts| ensures DraftOk(env, g', drafts[k]) {
      assert DraftOk(env, g, g.drafts[k]);
    }
    forall x, y | Binds(g', env.decisionId(x, y)) ensures x == g'.id && FindDraft(g'.drafts, y).Some? {
      assert Binds(g, env.decisionId(x, y));
      var k := FindDraft(g.drafts, y).value;
      assert drafts[k].id == y;
    }
    assert forall v :: v in g.invitations ==> InvitationOk(accounts, g, v) ==> InvitationOk(accounts, g', v);
  }

  lemma RenameKeeps(env: Env, s: State, who: Id, id: Id, version: nat, decision: Option<Id>, previous: string,
                    name: string)
    requires WellFormed(env, s) && Rename(s, who, id, version, decision, previous, name).Ok?
    ensures WellFormed(env, Rename(s, who, id, version, decision, previous, name).value)
  {
    var i := OrganizedGroup(s, who, id).value;
    var g := s.groups[i];
    if decision.None? {
      var g' := g.(name := name);
      DraftsFollow(env, g, g');
      assert forall v :: v in g.invitations ==> InvitationOk(s.accounts, g, v) ==> InvitationOk(s.accounts, g', v);
      PutKeeps(env, s, i, g');
    } else {
      var k := IndexOf(g.decisions, (b: Binding) => b.id == decision.value && !b.deleted).value;
      RebindingKeeps(env, s.accounts, g, k, g.decisions[k].(title := Some(name)));
      PutKeeps(env, s, i, g.(decisions := g.decisions[k := g.decisions[k].(title := Some(name))]));
    }
  }

  lemma RemoveItemKeeps(env: Env, s: State, who: Id, id: Id, version: nat, kind: ItemKind, item: Id)
    requires WellFormed(env, s) && RemoveItem(s, who, id, version, kind, item).Ok?
    ensures WellFormed(env, RemoveItem(s, who, id, version, kind, item).value)
  {
    var i := OrganizedGroup(s, who, id).value;
    var g := s.groups[i];
    if kind == DraftItem {
      var k := FindDraft(g.drafts, item).value;
      var drafts := g.drafts[k := g.drafts[k].(deleted := true)];
      RedraftingKeeps(env, s.accounts, g, drafts);
      PutKeeps(env, s, i, g.(drafts := drafts));
    } else {
      var k := FindBinding(g.decisions, item).value;
      var g1 := g.(decisions := g.decisions[k := g.decisions[k].(deleted := true)]);
      RebindingKeeps(env, s.accounts, g, k, g.decisions[k].(deleted := true));
      var drafts := Retired(g.drafts, (d: Draft) => d.created == Some(item));
      RedraftingKeeps(env, s.accounts, g1, drafts);
      PutKeeps(env, s, i, g1.(drafts := drafts));
    }
  }

  lemma WithoutMemberOk(env: Env, accounts: seq<Account>, g: Group, target: Id)
    requires GroupOk(env, accounts, g) && DerivedOk(env, g) && target != g.organizer
    ensures var g' := g.(members := Filter(g.members, (m: Id) => m != target), version := g.version + 1);
            GroupOk(env, accounts, g') && DerivedOk(env, g')
  {
    var g' := g.(members := Filter(g.members, (m: Id) => m != target), version := g.version + 1);
    FilterDistinct(g.members, (m: Id) => m != target);
    assert g.organizer in g'.members;
    DraftsFollow(env, g, g');
    assert forall v :: v in g.invitations ==> InvitationOk(accounts, g, v) ==> InvitationOk(accounts, g', v);
  }

  lemma RemoveKeeps(env: Env, s: State, who: Id, id: Id, member: Id, version: nat)
    requires WellFormed(env, s) && Remove(env, s, who, id, member, version).Ok?
    ensures WellFormed(env, Remove(env, s, who, id, member, version).value)
  {
    var i := OrganizedGroup(s, who, id).value;
    var g := s.groups[i];
    var target := g.members[IndexOf(g.members, (m: Id) => env.memberId(m) == member).value];
    WithoutMemberOk(env, s.accounts, g, target);
    PutKeeps(env, s, i, g.(members := Filter(g.members, (m: Id) => m != target), version := g.version + 1));
  }

  lemma DeleteGroupKeeps(env: Env, s: State, who: Id, id: Id, version: nat)
    requires WellFormed(env, s) && DeleteGroup(s, who, id, version).Ok?
    ensures WellFormed(env, DeleteGroup(s, who, id, version).value)
  {
    var i := OrganizedGroup(s, who, id).value;
    var g := s.groups[i];
    var g1 := g.(deleted := true, version := g.version + 1, decisions := Closed(g.decisions));
    DraftsFollow(env, g, g1);
    assert GroupOk(env, s.accounts, g1) by {
      forall a, b | 0 <= a < b < |g1.decisions| ensures DifferentBindings(g1.decisions[a], g1.decisions[b]) {
        assert DifferentBindings(g.decisions[a], g.decisions[b]);
      }
      assert forall v :: v in g.invitations ==> InvitationOk(s.accounts, g, v) ==> InvitationOk(s.accounts, g1, v);
    }
    var drafts := Retired(g.drafts, (d: Draft) => true);
    RedraftingKeeps(env, s.accounts, g1, drafts);
    PutKeeps(env, s, i, g1.(drafts := drafts));
  }

  /** Where a new binding can be found, and where the old ones still are. */
  lemma BindsAfterPush(g: Group, b: Binding)
    requires FindBinding(g.decisions, b.id).None?
    ensures var g' := g.(decisions := g.decisions + [b]); forall d :: Binds(g', d) <==> Binds(g, d) || d == b.id
  {
    var g' := g.(decisions := g.decisions + [b]);
    forall d ensures Binds(g', d) <==> Binds(g, d) || d == b.id {
      assert forall k :: 0 <= k < |g'.decisions| ==> g'.decisions[k] == if k < |g.decisions| then g.decisions[k] else b;
      if Binds(g, d) {
        assert g'.decisions[FindBinding(g.decisions, d).value].id == d;
      } else if d == b.id {
        assert g'.decisions[|g.decisions|].id == d;
      }
    }
  }

  /** A binding that is new, and not of a derived decision, may be added. */
  lemma BoundKeeps(env: Env, accounts: seq<Account>, g: Group, b: Binding)
    requires GroupOk(env, accounts, g) && DerivedOk(env, g) && |g.decisions| < MAX_ITEMS
    requires FindBinding(g.decisions, b.id).None? && !Derived(env, b.id) && b.version <= g.version
    ensures var g' := g.(decisions := g.decisions + [b]); GroupOk(env, accounts, g') && DerivedOk(env, g')
  {
    var g' := g.(decisions := g.decisions + [b]);
    BindsAfterPush(g, b);
    forall k | 0 <= k < |g'.drafts| ensures DraftOk(env, g', g'.drafts[k]) {
      assert DraftOk(env, g, g.drafts[k]);
    }
    assert forall v :: v in g.invitations ==> InvitationOk(accounts, g, v) ==> InvitationOk(accounts, g', v);
  }

  lemma BindDecisionKeeps(env: Env, s: State, who: Id, id: Id, decision: Id, version: nat)
    requires WellFormed(env, s) && BindDecision(s, who, id, decision, version).Ok? && !Derived(env, decision)
    ensures WellFormed(env, BindDecision(s, who, id, decision, version).value)
  {
    var i := OrganizedGroup(s, who, id).value;
    var g := s.groups[i];
    if FindBinding(g.decisions, decision).None? {
      var b := Binding(decision, version, None, false);
      BoundKeeps(env, s.accounts, g, b);
      PutKeeps(env, s, i, g.(decisions := g.decisions + [b]));
    }
  }

  /** A draft may be added whose decision is not bound yet. */
  lemma SavedKeeps(env: Env, accounts: seq<Account>, g: Group, d: Draft)
    requires GroupOk(env, accounts, g) && DerivedOk(env, g) && |g.drafts| < MAX_ITEMS
    requires FindDraft(g.drafts, d.id).None? && d.created.None? && d.groupVersion <= g.version
    ensures var g' := g.(drafts := g.drafts + [d]); GroupOk(env, accounts, g') && DerivedOk(env, g')
  {
    var g' := g.(drafts := g.drafts + [d]);
    assert !Binds(g, env.decisionId(g.id, d.id));
    forall k | 0 <= k < |g'.drafts| ensures DraftOk(env, g', g'.drafts[k]) {
      if k < |g.drafts| { assert DraftOk(env, g, g.drafts[k]); }
    }
    forall x, y | Binds(g', env.decisionId(x, y)) ensures x == g'.id && FindDraft(g'.drafts, y).Some? {
      assert Binds(g, env.decisionId(x, y));
      assert g'.drafts[FindDraft(g.drafts, y).value].id == y;
    }
    assert forall v :: v in g.invitations ==> InvitationOk(accounts, g, v) ==> InvitationOk(accounts, g', v);
  }

  lemma SaveDraftKeeps(env: Env, s: State, who: Id, id: Id, rosterVersion: nat, draftId: Id, bodyHash: Id, frame: Frame,
                       questions: seq<string>, previous: Option<(Id, nat)>, enabled: bool)
    requires WellFormed(env, s)
    requires SaveDraft(s, who, id, rosterVersion, draftId, bodyHash, frame, questions, previous, enabled).Ok?
    ensures WellFormed(env,
                       SaveDraft(s, who, id, rosterVersion, draftId, bodyHash, frame, questions, previous,
                                 enabled).value)
  {
    var i := OrganizedGroup(s, who, id).value;
    var g := s.groups[i];
    if FindDraft(g.drafts, draftId).None? {
      var d := Draft(draftId, bodyHash, 1, rosterVersion, frame, questions, None, false);
      SavedKeeps(env, s.accounts, g, d);
      PutKeeps(env, s, i, g.(drafts := g.drafts + [d]));
    }
  }

  lemma EditKeeps(env: Env, s: State, who: Id, id: Id, draftId: Id, revision: nat, title: string, objective: string,
                  content: nat, valid: bool)
    requires WellFormed(env, s) && Edit(env, s, who, id, draftId, revision, title, objective, content, valid).Ok?
    ensures WellFormed(env, Edit(env, s, who, id, draftId, revision, title, objective, content, valid).value)
  {
    var i := OrganizedGroup(s, who, id).value;
    var g' := Edit(env, s, who, id, draftId, revision, title, objective, content, valid).value.groups[i];
    RedraftingKeeps(env, s.accounts, s.groups[i], g'.drafts);
    PutKeeps(env, s, i, g');
  }

  /** Binding the derived decision of one draft leaves every draft naming exactly its own. */
  lemma ReservedDraftsOk(env: Env, g: Group, k: nat)
    requires Injective(env) && DraftsOk(env, g) && DerivedOk(env, g) && k < |g.drafts| && g.drafts[k].created.None?
    ensures var g' := ReservedGroup(g, k, env.decisionId(g.id, g.drafts[k].id)); DraftsOk(env, g') && DerivedOk(env, g')
  {
    var d := g.drafts[k];
    var decision := env.decisionId(g.id, d.id);
    var g' := ReservedGroup(g, k, decision);
    assert DraftOk(env, g, d);
    ReservedBinds(g, k, decision);
    forall a, c | 0 <= a < c < |g'.drafts| ensures DifferentDrafts(g'.drafts[a], g'.drafts[c]) {
      assert DifferentDrafts(g.drafts[a], g.drafts[c]);
    }
    forall j | 0 <= j < |g'.drafts| ensures DraftOk(env, g', g'.drafts[j]) {
      assert DraftOk(env, g, g.drafts[j]);
      if j < k { assert DifferentDrafts(g.drafts[j], d); } else if k < j { assert DifferentDrafts(d, g.drafts[j]); }
    }
    forall x, y | Binds(g', env.decisionId(x, y)) ensures x == g'.id && FindDraft(g'.drafts, y).Some? {
      var at := if env.decisionId(x, y) == decision then k else FindDraft(g.drafts, y).value;
      assert g'.drafts[at].id == y;
    }
  }

  lemma ReservedBinds(g: Group, k: nat, decision: Id)
    requires k < |g.drafts| && g.drafts[k].created.None? && !Binds(g, decision)
    ensures forall x :: Binds(ReservedGroup(g, k, decision), x) <==> Binds(g, x) || x == decision
  {
    var b := Binding(decision, g.version, None, false);
    BindsAfterPush(g, b);
    assert forall x :: Binds(ReservedGroup(g, k, decision), x) == Binds(g.(decisions := g.decisions + [b]), x);
  }

  lemma ReservedKeeps(env: Env, accounts: seq<Account>, g: Group, k: nat)
    requires Injective(env) && GroupOk(env, accounts, g) && DerivedOk(env, g) && k < |g.drafts|
    requires g.drafts[k].created.None? ==> |g.decisions| < MAX_ITEMS
    ensures var g' := ReservedGroup(g, k, env.decisionId(g.id, g.drafts[k].id));
            GroupOk(env, accounts, g') && DerivedOk(env, g')
  {
    if g.drafts[k].created.None? {
      var decision := env.decisionId(g.id, g.drafts[k].id);
      var g' := ReservedGroup(g, k, decision);
      ReservedDraftsOk(env, g, k);
      assert DraftOk(env, g, g.drafts[k]);
      assert BindingsOk(g') by {
        forall a, c | 0 <= a < c < |g'.decisions| ensures DifferentBindings(g'.decisions[a], g'.decisions[c]) {
          if c < |g.decisions| { assert DifferentBindings(g.decisions[a], g.decisions[c]); }
        }
      }
      assert forall v :: v in g.invitations ==> InvitationOk(accounts, g, v) ==> InvitationOk(accounts, g', v);
    }
  }

  lemma ReserveKeeps(env: Env, s: State, who: Id, id: Id, draftId: Id, revision: nat, enabled: bool)
    requires Injective(env) && WellFormed(env, s) && Reserve(env, s, who, id, draftId, revision, enabled).Ok?
    ensures WellFormed(env, Reserve(env, s, who, id, draftId, revision, enabled).value.0)
  {
    var i := OrganizedGroup(s, who, id).value;
    var g := s.groups[i];
    var k := FindDraft(g.drafts, draftId).value;
    ReservedKeeps(env, s.accounts, g, k);
    PutKeeps(env, s, i, ReservedGroup(g, k, env.decisionId(id, draftId)));
  }

  lemma RebindKeeps(env: Env, s: State, who: Id, id: Id, decision: Id, previewVersion: nat, rosterVersion: nat,
                    roster: seq<Id>)
    requires WellFormed(env, s) && Rebind(s, who, id, decision, previewVersion, rosterVersion, roster).Ok?
    ensures WellFormed(env, Rebind(s, who, id, decision, previewVersion, rosterVersion, roster).value)
  {
    var i := OrganizedGroup(s, who, id).value;
    var g := s.groups[i];
    var k := FindBinding(g.decisions, decision).value;
    RebindingKeeps(env, s.accounts, g, k, g.decisions[k].(version := g.version));
    PutKeeps(env, s, i, g.(decisions := g.decisions[k := g.decisions[k].(version := g.version)]));
  }

  lemma StepKeeps(env: Env, s: State, e: Event)
    requires Injective(env) && Allowed(env, e) && WellFormed(env, s)
    ensures WellFormed(env, Step(env, s, e))
  {
    if Apply(env, s, e).Ok? {
      match e
      case RegisterE(who, verified, emailHash, name, username) =>
        RegisterKeeps(env, s, who, verified, emailHash, name, username);
      case OperateE(action, subject, expected) => OperateKeeps(env, s, action, subject, expected);
      case CreateGroupE(who, id, name) => CreateGroupKeeps(env, s, who, id, name);
      case InviteE(who, id, recipient, replace, token, now) =>
        InviteKeeps(env, s, who, id, recipient, replace, token, now);
      case AcceptE(who, token, inbox, now) => AcceptKeeps(env, s, who, token, inbox, now);
      case RenameE(who, id, version, decision, previous, name) =>
        RenameKeeps(env, s, who, id, version, decision, previous, name);
      case RemoveItemE(who, id, version, kind, item) => RemoveItemKeeps(env, s, who, id, version, kind, item);
      case RemoveE(who, id, member, version) => RemoveKeeps(env, s, who, id, member, version);
      case DeleteGroupE(who, id, version) => DeleteGroupKeeps(env, s, who, id, version);
      case BindDecisionE(who, id, bound, version) => BindDecisionKeeps(env, s, who, id, bound, version);
      case SaveDraftE(who, id, rosterVersion, draftId, bodyHash, frame, questions, continued, enabled) =>
        SaveDraftKeeps(env, s, who, id, rosterVersion, draftId, bodyHash, frame, questions, continued, enabled);
      case EditE(who, id, draftId, revision, title, objective, content, valid) =>
        EditKeeps(env, s, who, id, draftId, revision, title, objective, content, valid);
      case ReserveE(who, id, draftId, revision, enabled) => ReserveKeeps(env, s, who, id, draftId, revision, enabled);
      case RebindE(who, id, bound, previewVersion, rosterVersion, roster) =>
        RebindKeeps(env, s, who, id, bound, previewVersion, rosterVersion, roster);
    }
  }

  ghost predicate AllAllowed(env: Env, events: seq<Event>) {
    forall k :: 0 <= k < |events| ==> Allowed(env, events[k])
  }

  /** Every state that any run of transactions reaches is well formed. */
  lemma {:induction false} RunKeeps(env: Env, s: State, events: seq<Event>)
    requires Injective(env) && AllAllowed(env, events) && WellFormed(env, s)
    ensures WellFormed(env, Run(env, s, events))
    decreases |events|
  {
    if events != [] {
      assert Allowed(env, events[0]);
      StepKeeps(env, s, events[0]);
      RunKeeps(env, Step(env, s, events[0]), events[1..]);
    }
  }

  lemma ReachableWellFormed(env: Env, events: seq<Event>)
    requires Injective(env) && AllAllowed(env, events)
    ensures WellFormed(env, Run(env, EMPTY, events))
  {
    RunKeeps(env, EMPTY, events);
  }
}
