/** What each transaction means for the people it concerns: who may do what before and after it. */
module GroupEffects {
  import opened Prelude
  import opened GroupState
  import opened GroupTransitions
  import opened GroupInvariant
  import opened GroupHistory
  import opened GroupRevocation

  // ----- changes that change no answer

  /** Everything an authorization looks at in a group. */
  predicate SameStanding(g: Group, g': Group) {
    && g'.id == g.id && g'.deleted == g.deleted && g'.members == g.members && g'.version == g.version
    && |g'.decisions| == |g.decisions|
    && forall k :: 0 <= k < |g.decisions| ==> SameBinding(g.decisions[k], g'.decisions[k])
  }

  predicate SameBinding(b: Binding, b': Binding) {
    b'.id == b.id && b'.version == b.version && b'.deleted == b.deleted
  }

  lemma SameGroups(s: State, i: nat, g: Group, who: Id, id: Id)
    requires i < |s.groups| && g.id == s.groups[i].id && g.deleted == s.groups[i].deleted
    requires g.members == s.groups[i].members
    ensures GroupOf(Put(s, i, g), who, id) == GroupOf(s, who, id)
  {
    var next := Put(s, i, g);
    assert forall j :: 0 <= j < |s.groups| ==>
      next.groups[j].id == s.groups[j].id && next.groups[j].deleted == s.groups[j].deleted
      && next.groups[j].members == s.groups[j].members;
  }

  lemma SameSearch(s: State, i: nat, g: Group, decision: Id)
    requires i < |s.groups| && SameStanding(s.groups[i], g)
    ensures BindingGroup(Put(s, i, g), decision) == BindingGroup(s, decision)
    ensures FindBinding(g.decisions, decision) == FindBinding(s.groups[i].decisions, decision)
  {
    BindsFollow(s.groups[i], g);
    var next := Put(s, i, g);
    assert forall j :: 0 <= j < |s.groups| ==> Binds(next.groups[j], decision) == Binds(s.groups[j], decision);
  }

  lemma SameDisplay(s: State, i: nat, g: Group, subject: Id, room: Id, decision: Id)
    requires i < |s.groups| && SameStanding(s.groups[i], g)
    ensures Authorize(Put(s, i, g), Display(subject, room), decision) == Authorize(s, Display(subject, room), decision)
  {
    SameSearch(s, i, g, decision);
  }

  lemma SameParticipant(s: State, i: nat, g: Group, who: Id, decision: Id)
    requires i < |s.groups| && SameStanding(s.groups[i], g)
    ensures Authorize(Put(s, i, g), Participant(who), decision) == Authorize(s, Participant(who), decision)
  {
    SameSearch(s, i, g, decision);
    var at := BindingGroup(s, decision);
    if at.Some? { SameGroups(s, i, g, who, s.groups[at.value].id); }
  }

  /** A change of what no authorization looks at changes no answer. */
  lemma SameAnswers(s: State, i: nat, g: Group, p: Principal, decision: Id)
    requires i < |s.groups| && SameStanding(s.groups[i], g)
    ensures Authorize(Put(s, i, g), p, decision) == Authorize(s, p, decision)
  {
    match p
    case Display(subject, room) => SameDisplay(s, i, g, subject, room, decision);
    case Participant(who) => SameParticipant(s, i, g, who, decision);
  }

  /** Nobody's answer changes, for any decision. */
  ghost predicate NoAnswerChanges(s: State, next: State) {
    forall p: Principal, decision :: Authorize(next, p, decision) == Authorize(s, p, decision)
  }

  lemma StandingKeepsAnswers(s: State, i: nat, g: Group)
    requires i < |s.groups| && SameStanding(s.groups[i], g)
    ensures NoAnswerChanges(s, Put(s, i, g))
  {
    forall p: Principal, decision ensures Authorize(Put(s, i, g), p, decision) == Authorize(s, p, decision) {
      SameAnswers(s, i, g, p, decision);
    }
  }

  // ----- accounts

  /** Registering gives the subject the e-mail and nobody else, and approves nobody. */
  lemma RegisterGives(env: Env, s: State, who: Id, verified: bool, emailHash: Id, name: string,
                      username: Option<string>)
    requires WellFormed(env, s) && Register(s, who, verified, emailHash, name, username).Ok?
    ensures var next := Register(s, who, verified, emailHash, name, username).value;
            && (forall x :: EmailOf(next.accounts, x) == Some(emailHash) <==> x == who)
            && (forall x :: x != who ==> EmailOf(next.accounts, x) == EmailOf(s.accounts, x))
            && (forall x :: IsApproved(next.accounts, x) == IsApproved(s.accounts, x))
            && next.groups == s.groups
            && if EmailOf(s.accounts, who).Some? then next == s
               else next.accounts == s.accounts + [Account(who, emailHash, name, Pending, 1, username)]
  {
    var next := Register(s, who, verified, emailHash, name, username).value;
    RegisterKeeps(env, s, who, verified, emailHash, name, username);
    if FindAccount(s.accounts, who).None? {
      var n := |s.accounts|;
      FindAccountIs(next.accounts, n);
      forall x | x != who ensures FindAccount(next.accounts, x) == FindAccount(s.accounts, x) {
        if FindAccount(s.accounts, x).Some? { FindAccountIs(next.accounts, FindAccount(s.accounts, x).value); }
      }
    }
    forall x | EmailOf(next.accounts, x) == Some(emailHash) ensures x == who { OneOwner(next.accounts, x, who); }
  }

  /** Two accounts with one e-mail are the same account. */
  lemma OneOwner(accounts: seq<Account>, x: Id, y: Id)
    requires AccountsOk(accounts) && EmailOf(accounts, x).Some? && EmailOf(accounts, x) == EmailOf(accounts, y)
    ensures x == y
  {
    var a, b := FindAccount(accounts, x).value, FindAccount(accounts, y).value;
    assert a < b ==> DifferentAccounts(accounts[a], accounts[b]);
    assert b < a ==> DifferentAccounts(accounts[b], accounts[a]);
  }

  /** An operator's action decides the approval of one subject and of nobody else. */
  lemma OperateGives(env: Env, s: State, action: Action, subject: Id, expected: nat)
    requires WellFormed(env, s) && Operate(s, action, subject, expected).Ok?
    ensures var next := Operate(s, action, subject, expected).value;
            && (forall x :: IsApproved(next.accounts, x) <==>
                              if x == subject then action == Approve else IsApproved(s.accounts, x))
            && (action != Approve ==> forall decision :: Authorize(next, Participant(subject), decision).Err?)
            && next.groups == s.groups
            && (next == s || exists a :: a in s.accounts && a.subject == subject && a.version == expected
                                         && a.(version := expected + 1, status := StatusAfter(action)) in next.accounts)
  {
    var next := Operate(s, action, subject, expected).value;
    OperateKeeps(env, s, action, subject, expected);
    assert forall k :: 0 <= k < |s.accounts| ==> next.accounts[k].subject == s.accounts[k].subject;
    forall x ensures FindAccount(next.accounts, x) == FindAccount(s.accounts, x) {
      if FindAccount(s.accounts, x).Some? { FindAccountIs(next.accounts, FindAccount(s.accounts, x).value); }
    }
    var i := FindAccount(s.accounts, subject).value;
    assert s.accounts[i] in s.accounts && next.accounts[i] in next.accounts;
  }

  function StatusAfter(action: Action): Status {
    match action
    case Approve => Approved
    case Reject => Rejected
    case Disable => Disabled
  }

  /** Of two actions on the same version of an account only one takes effect. */
  lemma OperatorsRace(s: State, first: Action, second: Action, subject: Id, expected: nat)
    requires Operate(s, first, subject, expected).Ok? && Operate(s, first, subject, expected).value != s
    ensures Operate(Operate(s, first, subject, expected).value, second, subject, expected).Ok? <==> second == first
  {
    var next := Operate(s, first, subject, expected).value;
    var i := FindAccount(s.accounts, subject).value;
    assert forall k :: 0 <= k < |s.accounts| ==> next.accounts[k].subject == s.accounts[k].subject;
    assert FindAccount(next.accounts, subject) == Some(i) by { FirstAccount(s.accounts, next.accounts, subject); }
  }

  lemma FirstAccount(accounts: seq<Account>, next: seq<Account>, who: Id)
    requires |next| == |accounts| && forall k :: 0 <= k < |accounts| ==> next[k].subject == accounts[k].subject
    ensures FindAccount(next, who) == FindAccount(accounts, who)
  {
  }

  // ----- groups and invitations

  /** After creating, or creating again, exactly one group has the identifier; it is live, has the name, and opens or
      shuts no decision for anybody. */
  lemma CreateGroupGives(env: Env, s: State, who: Id, id: Id, name: string)
    requires WellFormed(env, s) && CreateGroup(s, who, id, name).Ok?
    ensures var next := CreateGroup(s, who, id, name).value;
            && (exists i :: IsTheGroup(next, i, id, name))
            && NoAnswerChanges(s, next)
            && (next != s ==>
                  (forall x :: GroupOf(next, x, id).Ok? <==> x == who)
                  && OrganizedGroup(next, who, id) == Ok(|s.groups|)
                  && next.groups[|s.groups|].drafts == [] && next.groups[|s.groups|].invitations == [])
  {
    var next := CreateGroup(s, who, id, name).value;
    CreateGroupKeeps(env, s, who, id, name);
    var found := IndexOf(s.groups, (g: Group) => g.id == id);
    var i := if found.Some? then found.value else |s.groups|;
    forall j | 0 <= j < |next.groups| && j != i ensures next.groups[j].id != id { GroupsDiffer(env, next, i, j); }
    assert IsTheGroup(next, i, id, name);
    if found.None? {
      EmptyGroupKeepsAnswers(env, s, next.groups[i]);
      forall x ensures GroupOf(next, x, id).Ok? <==> x == who { NewMembers(env, next, i, x); }
    }
  }

  predicate IsTheGroup(s: State, i: int, id: Id, name: string) {
    && 0 <= i < |s.groups| && s.groups[i].id == id && s.groups[i].name == name && !s.groups[i].deleted
    && forall j :: 0 <= j < |s.groups| && j != i ==> s.groups[j].id != id
  }

  lemma NewMembers(env: Env, s: State, i: nat, x: Id)
    requires WellFormed(env, s) && i < |s.groups| && !s.groups[i].deleted
    ensures GroupOf(s, x, s.groups[i].id).Ok? <==> x in s.groups[i].members && IsApproved(s.accounts, x)
  {
    if IsApproved(s.accounts, x) { GroupOfSelected(env, s, x, i); }
  }

  lemma AppendedSearch(s: State, g: Group, decision: Id)
    requires g.decisions == []
    ensures BindingGroup(s.(groups := s.groups + [g]), decision) == BindingGroup(s, decision)
  {
    var next := s.(groups := s.groups + [g]);
    assert forall j :: 0 <= j < |s.groups| ==> next.groups[j] == s.groups[j];
    assert next.groups[|s.groups|] == g && !Binds(g, decision);
  }

  lemma AppendedLookup(env: Env, s: State, g: Group, who: Id, i: nat)
    requires WellFormed(env, s) && WellFormed(env, s.(groups := s.groups + [g])) && i < |s.groups|
    ensures !s.groups[i].deleted ==>
              GroupOf(s.(groups := s.groups + [g]), who, s.groups[i].id) == GroupOf(s, who, s.groups[i].id)
  {
    if !s.groups[i].deleted && IsApproved(s.accounts, who) {
      GroupOfSelected(env, s, who, i);
      GroupOfSelected(env, s.(groups := s.groups + [g]), who, i);
    }
  }

  /** A group that binds nothing changes no answer. */
  lemma EmptyGroupKeepsAnswers(env: Env, s: State, g: Group)
    requires WellFormed(env, s) && WellFormed(env, s.(groups := s.groups + [g])) && g.decisions == []
    ensures NoAnswerChanges(s, s.(groups := s.groups + [g]))
  {
    forall p: Principal, decision
      ensures Authorize(s.(groups := s.groups + [g]), p, decision) == Authorize(s, p, decision)
    {
      AppendedSearch(s, g, decision);
      var at := BindingGroup(s, decision);
      if at.Some? { AppendedLookup(env, s, g, p.subject, at.value); }
    }
  }

  /** After inviting, the recipient holds exactly the new invitation, everybody else exactly those that had not run
      out, and no answer has changed. */
  lemma InviteGives(env: Env, s: State, who: Id, id: Id, recipient: Id, replace: bool, token: Id, now: nat)
    requires Invite(s, who, id, recipient, replace, token, now).Ok?
    ensures var i := OrganizedGroup(s, who, id).value;
            var next := Invite(s, who, id, recipient, replace, token, now).value;
            && |next.groups| == |s.groups| && NoAnswerChanges(s, next)
            && forall v :: v in next.groups[i].invitations <==>
                 if v.recipientHash == recipient then v == Invitation(recipient, token, now + INVITATION_MS, None)
                 else v in s.groups[i].invitations && v.expiresAt > now
  {
    var i := OrganizedGroup(s, who, id).value;
    var next := Invite(s, who, id, recipient, replace, token, now).value;
    assert next == Put(s, i, next.groups[i]);
    StandingKeepsAnswers(s, i, next.groups[i]);
  }

  /** The token of an invitation is new to every live group. */
  predicate FreshToken(s: State, token: Id) {
    InvitedGroup(s, token).None?
  }

  lemma TokenLeads(s: State, who: Id, id: Id, recipient: Id, replace: bool, token: Id, now: nat)
    requires Invite(s, who, id, recipient, replace, token, now).Ok? && FreshToken(s, token)
    ensures var i := OrganizedGroup(s, who, id).value;
            var next := Invite(s, who, id, recipient, replace, token, now).value;
            && InvitedGroup(next, token) == Some(i) && next.accounts == s.accounts && |next.groups| == |s.groups|
            && next.groups[i].members == s.groups[i].members
            && next.groups[i].invitations[FindInvitation(next.groups[i], token).value]
               == Invitation(recipient, token, now + INVITATION_MS, None)
  {
    var i := OrganizedGroup(s, who, id).value;
    var g := s.groups[i];
    var next := Invite(s, who, id, recipient, replace, token, now).value;
    var g' := next.groups[i];
    assert FindInvitation(g, token).None?;
    forall k | 0 <= k < |g'.invitations| - 1 ensures g'.invitations[k].tokenHash != token {
      assert g'.invitations[k] in g.invitations;
    }
    assert g'.invitations[|g'.invitations| - 1].tokenHash == token;
    assert forall j :: 0 <= j < i ==> next.groups[j] == s.groups[j];
  }

  /** Exactly: an invitation lets in the approved holder of the invited e-mail, for a day, while there is room. */
  lemma InvitationOpens(env: Env, s: State, who: Id, id: Id, recipient: Id, replace: bool, token: Id, now: nat,
                        x: Id, later: nat)
    requires WellFormed(env, s) && FreshToken(s, token) && Invite(s, who, id, recipient, replace, token, now).Ok?
    ensures var i := OrganizedGroup(s, who, id).value;
            var r := Accept(Invite(s, who, id, recipient, replace, token, now).value, x, token, None, later);
            && (r.Ok? <==> IsApproved(s.accounts, x) && EmailOf(s.accounts, x) == Some(recipient)
                           && later < now + INVITATION_MS && |s.groups[i].members| < MAX_MEMBERS)
            && (r.Ok? ==> |r.value.groups| == |s.groups| && x !in s.groups[i].members
                          && r.value.groups[i].members == s.groups[i].members + [x])
  {
    var i := OrganizedGroup(s, who, id).value;
    TokenLeads(s, who, id, recipient, replace, token, now);
    if EmailOf(s.accounts, x) == Some(recipient) {
      assert !MemberHolds(s.accounts, s.groups[i], recipient);
      if x in s.groups[i].members { assert false; }
    }
  }

  // ----- names

  /** The name a group, or a decision that it binds, is shown under. */
  function Shown(g: Group, decision: Option<Id>): Option<string> {
    match decision
    case None => Some(g.name)
    case Some(d) =>
      var at := FindBinding(g.decisions, d);
      if at.Some? then Some(Titled(g, g.decisions[at.value])) else None
  }

  /** A decision is shown under the name it was given; otherwise under the title of the draft it was created from; and
      under a stock name if there is none. */
  lemma ShownExactly(env: Env, s: State, i: nat, k: nat, j: nat)
    requires Injective(env) && WellFormed(env, s) && i < |s.groups| && k < |s.groups[i].decisions|
    ensures var g, b := s.groups[i], s.groups[i].decisions[k];
            && (b.title.Some? ==> Shown(g, Some(b.id)) == b.title)
            && (b.title.None? && j < |g.drafts| && g.drafts[j].created == Some(b.id) ==>
                  Shown(g, Some(b.id)) == Some(g.drafts[j].frame.title))
            && (b.title.None? && (forall d :: d in g.drafts ==> d.created != Some(b.id)) ==>
                  Shown(g, Some(b.id)) == Some("Untitled decision"))
  {
    var g, b := s.groups[i], s.groups[i].decisions[k];
    assert BindingsOk(g) && DraftsOk(env, g) by { assert GroupOk(env, s.accounts, g); }
    FoundOnce(g.decisions, k);
    var at := IndexOf(g.drafts, (d: Draft) => d.created == Some(b.id));
    if b.title.None? && j < |g.drafts| && g.drafts[j].created == Some(b.id) {
      assert DraftOk(env, g, g.drafts[j]) && DraftOk(env, g, g.drafts[at.value]);
      assert at.value < j ==> DifferentDrafts(g.drafts[at.value], g.drafts[j]);
    }
    if at.Some? { assert g.drafts[at.value] in g.drafts; }
  }

  lemma FoundOnce(decisions: seq<Binding>, k: nat)
    requires Pairwise(decisions, DifferentBindings) && k < |decisions|
    ensures FindBinding(decisions, decisions[k].id) == Some(k)
  {
    forall j | 0 <= j < k ensures decisions[j].id != decisions[k].id {
      assert DifferentBindings(decisions[j], decisions[k]);
    }
  }

  function Retitled(g: Group, k: nat, name: string): Group
    requires k < |g.decisions|
  {
    g.(decisions := g.decisions[k := g.decisions[k].(title := Some(name))])
  }

  lemma RetitledShows(g: Group, k: nat, name: string, other: Option<Id>)
    requires k < |g.decisions| && Pairwise(g.decisions, DifferentBindings)
    ensures Shown(Retitled(g, k, name), other)
            == if other == Some(g.decisions[k].id) then Some(name) else Shown(g, other)
  {
    BindsFollow(g, Retitled(g, k, name));
    FoundOnce(g.decisions, k);
  }

  lemma RenamedShows(g: Group, name: string, other: Option<Id>)
    ensures Shown(g.(name := name), other) == if other.None? then Some(name) else Shown(g, other)
  {
  }

  /** The group with the new name for itself or for one decision. */
  ghost predicate Renamed(g: Group, g': Group, decision: Option<Id>, name: string) {
    match decision
    case None => g' == g.(name := name)
    case Some(d) => exists k :: 0 <= k < |g.decisions| && g.decisions[k].id == d && g' == Retitled(g, k, name)
  }

  lemma RenamedGroup(env: Env, s: State, who: Id, id: Id, version: nat, decision: Option<Id>, previous: string,
                     name: string)
    requires WellFormed(env, s) && Rename(s, who, id, version, decision, previous, name).Ok?
    ensures var i := OrganizedGroup(s, who, id).value;
            var next := Rename(s, who, id, version, decision, previous, name).value;
            && |next.groups| == |s.groups| && next == Put(s, i, next.groups[i])
            && Shown(s.groups[i], decision) in {Some(previous), Some(name)}
            && Renamed(s.groups[i], next.groups[i], decision, name)
  {
    var g := s.groups[OrganizedGroup(s, who, id).value];
    if decision.Some? {
      var k := IndexOf(g.decisions, (b: Binding) => b.id == decision.value && !b.deleted).value;
      assert BindingsOk(g) by { assert GroupOk(env, s.accounts, g); }
      FoundOnce(g.decisions, k);
      assert g.decisions[k].id == decision.value;
    }
  }

  lemma RenamedOnly(g: Group, g': Group, decision: Option<Id>, name: string, other: Option<Id>)
    requires Pairwise(g.decisions, DifferentBindings) && Renamed(g, g', decision, name)
    ensures Shown(g', other) == if other == decision then Some(name) else Shown(g, other)
    ensures SameStanding(g, g')
  {
    if decision.None? {
      RenamedShows(g, name, other);
    } else {
      var k :| 0 <= k < |g.decisions| && g.decisions[k].id == decision.value && g' == Retitled(g, k, name);
      RetitledShows(g, k, name, other);
    }
  }

  /** What is shown afterwards is the new name, where before it was the old or already the new one; nothing else is
      shown differently, and no answer has changed. */
  lemma RenameGives(env: Env, s: State, who: Id, id: Id, version: nat, decision: Option<Id>, previous: string,
                    name: string)
    requires WellFormed(env, s) && Rename(s, who, id, version, decision, previous, name).Ok?
    ensures var i := OrganizedGroup(s, who, id).value;
            var next := Rename(s, who, id, version, decision, previous, name).value;
            && |next.groups| == |s.groups| && NoAnswerChanges(s, next)
            && Shown(s.groups[i], decision) in {Some(previous), Some(name)}
            && forall other :: Shown(next.groups[i], other)
                               == if other == decision then Some(name) else Shown(s.groups[i], other)
  {
    var i := OrganizedGroup(s, who, id).value;
    var g, g' := s.groups[i], Rename(s, who, id, version, decision, previous, name).value.groups[i];
    RenamedGroup(env, s, who, id, version, decision, previous, name);
    assert BindingsOk(g) by { assert GroupOk(env, s.accounts, g); }
    forall other { RenamedOnly(g, g', decision, name, other); }
    RenamedOnly(g, g', decision, name, None);
    StandingKeepsAnswers(s, i, g');
  }

  // ----- removal, binding

  /** A removal takes out exactly the one member it names, never the organizer, makes every binding of the group stale,
      and refuses every creation that was reserved before it. */
  lemma RemoveGives(env: Env, s: State, who: Id, id: Id, member: Id, version: nat)
    requires WellFormed(env, s) && Remove(env, s, who, id, member, version).Ok?
    ensures var i := OrganizedGroup(s, who, id).value;
            var next := Remove(env, s, who, id, member, version).value;
            && |next.groups| == |s.groups|
            && (forall decision :: !Current(next.groups[i], decision))
            && (exists target :: RemovedOne(env, s.groups[i], next.groups[i], target, member))
            && (forall x, a: Attempt :: a.groupId == id && a.groupVersion <= version ==>
                                          CreationFence(next, x, a).Err?)
  {
    var i := OrganizedGroup(s, who, id).value;
    var g := s.groups[i];
    var next := Remove(env, s, who, id, member, version).value;
    RemoveKeeps(env, s, who, id, member, version);
    RemovedGroup(env, s, who, id, member, version);
    assert BindingsOk(g) by { assert GroupOk(env, s.accounts, g); }
    forall decision ensures !Current(next.groups[i], decision) { VersionStales(g, next.groups[i], decision); }
    var target := g.members[IndexOf(g.members, (m: Id) => env.memberId(m) == member).value];
    assert RemovedOne(env, g, next.groups[i], target, member);
    forall x, a: Attempt | a.groupId == id && a.groupVersion <= version { LaterVersionRefuses(env, next, i, x, a); }
  }

  /** An attempt reserved under an earlier version of its group never passes the fence. */
  lemma LaterVersionRefuses(env: Env, s: State, i: nat, x: Id, a: Attempt)
    requires WellFormed(env, s) && i < |s.groups| && s.groups[i].id == a.groupId && a.groupVersion < s.groups[i].version
    ensures CreationFence(s, x, a).Err?
  {
    if OrganizedGroup(s, x, a.groupId).Ok? { OrganizedIs(env, s, x, a.groupId, i); }
  }

  ghost predicate RemovedOne(env: Env, g: Group, g': Group, target: Id, member: Id) {
    && target in g.members && env.memberId(target) == member && target != g.organizer
    && forall m :: (m in g'.members) <==> (m in g.members && m != target)
  }

  /** Binding by hand makes the decision current in this group and touches no other binding of it. */
  lemma BindGives(env: Env, s: State, who: Id, id: Id, decision: Id, version: nat)
    requires BindDecision(s, who, id, decision, version).Ok?
    ensures var i := OrganizedGroup(s, who, id).value;
            var next := BindDecision(s, who, id, decision, version).value;
            && |next.groups| == |s.groups| && Current(next.groups[i], decision)
            && forall d :: d != decision ==> (Current(next.groups[i], d) <==> Current(s.groups[i], d))
  {
    var i := OrganizedGroup(s, who, id).value;
    var next := BindDecision(s, who, id, decision, version).value;
    var g := s.groups[i];
    if !Binds(g, decision) {
      AppendedIsCurrent(g, decision);
      forall d | d != decision ensures Current(next.groups[i], d) <==> Current(g, d) {
        PushedLookup(g.decisions, Binding(decision, version, None, false), d);
      }
    }
  }

  lemma PushedLookup(decisions: seq<Binding>, b: Binding, d: Id)
    requires b.id != d
    ensures FindBinding(decisions + [b], d) == FindBinding(decisions, d)
  {
    var all := decisions + [b];
    assert forall k :: 0 <= k < |decisions| ==> all[k] == decisions[k];
    assert all[|decisions|] == b;
  }

  /** A decision nobody has bound is open to every approved person; binding it closes it to all but the members. */
  lemma BindingCloses(env: Env, s: State, who: Id, id: Id, decision: Id, version: nat, x: Id)
    requires WellFormed(env, s) && BindDecision(s, who, id, decision, version).Ok?
    requires BindingGroup(s, decision).None? && !Derived(env, decision)
    ensures Authorize(s, Participant(x), decision).Ok? <==> IsApproved(s.accounts, x)
    ensures Authorize(BindDecision(s, who, id, decision, version).value, Participant(x), decision).Ok?
            <==> IsApproved(s.accounts, x) && x in s.groups[OrganizedGroup(s, who, id).value].members
  {
    var i := OrganizedGroup(s, who, id).value;
    var g := s.groups[i];
    var g' := g.(decisions := g.decisions + [Binding(decision, g.version, None, false)]);
    assert !Binds(g, decision);
    BindDecisionKeeps(env, s, who, id, decision, version);
    AppendedIsCurrent(g, decision);
    FirstAnswers(s, i, g', decision);
    AuthorizeExactly(env, Put(s, i, g'), x, decision);
  }

  // ----- drafts

  /** A live draft with this identifier was saved from this request body. */
  predicate HoldsDraft(g: Group, draftId: Id, bodyHash: Id) {
    var at := FindDraft(g.drafts, draftId);
    at.Some? && !g.drafts[at.value].deleted && g.drafts[at.value].bodyHash == bodyHash
  }

  lemma FindPushed(drafts: seq<Draft>, d: Draft, x: Id)
    requires FindDraft(drafts, d.id).None?
    ensures FindDraft(drafts + [d], x) == if x == d.id then Some(|drafts|) else FindDraft(drafts, x)
  {
    var all := drafts + [d];
    assert forall k :: 0 <= k < |drafts| ==> all[k] == drafts[k];
    assert all[|drafts|] == d;
  }

  lemma SavedGroup(s: State, who: Id, id: Id, rosterVersion: nat, draftId: Id, bodyHash: Id,
                   frame: Frame, questions: seq<string>, previous: Option<(Id, nat)>, enabled: bool)
    requires SaveDraft(s, who, id, rosterVersion, draftId, bodyHash, frame, questions, previous, enabled).Ok?
    ensures var i := OrganizedGroup(s, who, id).value;
            var g := s.groups[i];
            var next := SaveDraft(s, who, id, rosterVersion, draftId, bodyHash, frame, questions, previous,
                                  enabled).value;
            (next == s && HoldsDraft(g, draftId, bodyHash))
            || (FindDraft(g.drafts, draftId).None? && next == Put(s, i, g.(drafts := g.drafts +
                  [Draft(draftId, bodyHash, 1, rosterVersion, frame, questions, None, false)])))
  {
  }

  /** A saved draft is there, in its first revision and with the given frame and questions, or it was there already; all
      others stay, and no answer changes. It goes through only for an identifier that is new, or that is held by a live
      draft of the same body. */
  lemma SaveDraftGives(s: State, who: Id, id: Id, rosterVersion: nat, draftId: Id, bodyHash: Id,
                       frame: Frame, questions: seq<string>, previous: Option<(Id, nat)>, enabled: bool)
    requires SaveDraft(s, who, id, rosterVersion, draftId, bodyHash, frame, questions, previous, enabled).Ok?
    ensures var i := OrganizedGroup(s, who, id).value;
            var next := SaveDraft(s, who, id, rosterVersion, draftId, bodyHash, frame, questions, previous,
                                  enabled).value;
            && |next.groups| == |s.groups| && NoAnswerChanges(s, next)
            && HoldsDraft(next.groups[i], draftId, bodyHash)
            && (forall d :: DraftIn(next.groups[i], d) ==
                              if d == draftId && DraftIn(s.groups[i], d).None?
                              then Some(Draft(draftId, bodyHash, 1, rosterVersion, frame, questions, None, false))
                              else DraftIn(s.groups[i], d))
    ensures var i := OrganizedGroup(s, who, id).value;
            HoldsDraft(s.groups[i], draftId, bodyHash) <==> DraftIn(s.groups[i], draftId).Some?
  {
    var i := OrganizedGroup(s, who, id).value;
    var g := s.groups[i];
    SavedGroup(s, who, id, rosterVersion, draftId, bodyHash, frame, questions, previous, enabled);
    if FindDraft(g.drafts, draftId).None? {
      var d := Draft(draftId, bodyHash, 1, rosterVersion, frame, questions, None, false);
      forall x { FindPushed(g.drafts, d, x); }
      StandingKeepsAnswers(s, i, g.(drafts := g.drafts + [d]));
    }
  }

  /** Where a transaction on one draft of a group leaves it. */
  lemma RedraftedAt(s: State, i: nat, k: nat, d: Draft)
    requires i < |s.groups| && FindDraft(s.groups[i].drafts, d.id) == Some(k)
    ensures var next := Put(s, i, s.groups[i].(drafts := s.groups[i].drafts[k := d]));
            FindDraft(next.groups[i].drafts, d.id) == Some(k) && NoAnswerChanges(s, next)
  {
    StandingKeepsAnswers(s, i, s.groups[i].(drafts := s.groups[i].drafts[k := d]));
    SameDrafts(s.groups[i].drafts, s.groups[i].drafts[k := d], d.id);
  }

  lemma SameDrafts(drafts: seq<Draft>, next: seq<Draft>, x: Id)
    requires |next| == |drafts| && forall k :: 0 <= k < |drafts| ==> next[k].id == drafts[k].id
    ensures FindDraft(next, x) == FindDraft(drafts, x)
  {
  }

  /** The draft as it stands in the group. */
  function DraftIn(g: Group, draftId: Id): Option<Draft> {
    var at := FindDraft(g.drafts, draftId);
    if at.Some? then Some(g.drafts[at.value]) else None
  }

  predicate AsksWhatIsOpen(env: Env, d: Draft) {
    env.question(d.frame).Some? ==> env.question(d.frame).value in d.questions || |d.questions| == 12
  }

  /** The draft has the next revision and the edited terms, for the same people. */
  predicate Edited(d: Draft, d': Draft, title: string, objective: string, content: nat) {
    && d'.frame.title == title && d'.frame.objective == objective && d'.frame.content == content
    && d'.frame.participants == d.frame.participants
    && d'.revision == d.revision + 1 && d'.created == d.created && d'.deleted == d.deleted
    && d'.bodyHash == d.bodyHash && d'.groupVersion == d.groupVersion
  }

  /** Nothing that was asked is forgotten, and nothing but what the frame leaves open is asked in addition. */
  predicate AsksOn(env: Env, d: Draft, d': Draft) {
    && AsksWhatIsOpen(env, d')
    && (if |d.questions| < 12 then d.questions else d.questions[..12]) <= d'.questions
    && forall q :: q in d'.questions ==> q in d.questions || env.question(d'.frame) == Some(q)
  }

  /** Only a draft nothing was created from is edited. It gets the next revision and the new terms, and asks what its
      new frame leaves open, unless it asks twelve questions already; every other draft stays, no answer changes, and
      a reservation of the revision before it is refused from then on. */
  lemma EditGives(env: Env, s: State, who: Id, id: Id, draftId: Id, revision: nat, title: string, objective: string,
                  content: nat, valid: bool)
    requires WellFormed(env, s) && Edit(env, s, who, id, draftId, revision, title, objective, content, valid).Ok?
    ensures var i := OrganizedGroup(s, who, id).value;
            var next := Edit(env, s, who, id, draftId, revision, title, objective, content, valid).value;
            && |next.groups| == |s.groups| && NoAnswerChanges(s, next)
            && (forall x :: x != draftId ==> DraftIn(next.groups[i], x) == DraftIn(s.groups[i], x))
            && (forall x, enabled :: Reserve(env, next, x, id, draftId, revision, enabled).Err?)
            && DraftIn(s.groups[i], draftId).Some? && DraftIn(next.groups[i], draftId).Some?
            && var d, d' := DraftIn(s.groups[i], draftId).value, DraftIn(next.groups[i], draftId).value;
               && d.created.None? && d.revision == revision
               && Edited(d, d', title, objective, content) && AsksOn(env, d, d')
  {
    var i := OrganizedGroup(s, who, id).value;
    var g := s.groups[i];
    var next := Edit(env, s, who, id, draftId, revision, title, objective, content, valid).value;
    var k := FindDraft(g.drafts, draftId).value;
    EditKeeps(env, s, who, id, draftId, revision, title, objective, content, valid);
    RedraftedAt(s, i, k, next.groups[i].drafts[k]);
    assert next == Put(s, i, g.(drafts := g.drafts[k := next.groups[i].drafts[k]]));
    forall x { SameDrafts(g.drafts, next.groups[i].drafts, x); }
    forall x, enabled ensures Reserve(env, next, x, id, draftId, revision, enabled).Err? {
      if OrganizedGroup(next, x, id).Ok? { OrganizedIs(env, next, x, id, i); }
    }
  }

  lemma AppendedBinders(s: State, i: nat, g: Group, b: Binding, decision: Id)
    requires i < |s.groups| && b.id != decision && g.decisions == s.groups[i].decisions + [b]
    ensures FindBinding(g.decisions, decision) == FindBinding(s.groups[i].decisions, decision)
    ensures BindingGroup(Put(s, i, g), decision) == BindingGroup(s, decision)
  {
    PushedLookup(s.groups[i].decisions, b, decision);
    var next := Put(s, i, g);
    assert forall j :: 0 <= j < |s.groups| ==> Binds(next.groups[j], decision) == Binds(s.groups[j], decision);
  }

  /** Binding one more decision changes no answer for another. */
  lemma AppendedKeepsAnswer(s: State, i: nat, g: Group, b: Binding, p: Principal, decision: Id)
    requires i < |s.groups| && b.id != decision
    requires g.decisions == s.groups[i].decisions + [b] && g.id == s.groups[i].id && g.version == s.groups[i].version
    requires g.members == s.groups[i].members && g.deleted == s.groups[i].deleted
    ensures Authorize(Put(s, i, g), p, decision) == Authorize(s, p, decision)
  {
    AppendedBinders(s, i, g, b, decision);
    var at := BindingGroup(s, decision);
    if p.Participant? && at.Some? { SameGroups(s, i, g, p.subject, s.groups[at.value].id); }
  }

  lemma ReservedNew(env: Env, s: State, who: Id, id: Id, draftId: Id, revision: nat, enabled: bool)
    requires Reserve(env, s, who, id, draftId, revision, enabled).Ok?
    ensures var i := OrganizedGroup(s, who, id).value;
            var g, pair := s.groups[i], Reserve(env, s, who, id, draftId, revision, enabled).value;
            var k := FindDraft(g.drafts, draftId).value;
            && DraftIn(g, draftId).Some? && pair.1.decisionId == env.decisionId(id, draftId)
            && if g.drafts[k].created.Some? then pair.0 == s
               else pair.0 == Put(s, i,
                                  g.(decisions := g.decisions + [Binding(pair.1.decisionId, g.version, None, false)],
                                           drafts := g.drafts[k := g.drafts[k].(created := Some(pair.1.decisionId))]))
  {
    var i := OrganizedGroup(s, who, id).value;
    assert Put(s, i, s.groups[i]) == s;
  }

  /** A first reservation locks exactly its draft, which keeps its content, and binds exactly its decision, which is
      current then; no answer for any other decision changes. A repeated one changes nothing. */
  lemma ReserveGives(env: Env, s: State, who: Id, id: Id, draftId: Id, revision: nat, enabled: bool)
    requires Injective(env) && WellFormed(env, s) && Reserve(env, s, who, id, draftId, revision, enabled).Ok?
    ensures var i := OrganizedGroup(s, who, id).value;
            var pair := Reserve(env, s, who, id, draftId, revision, enabled).value;
            && |pair.0.groups| == |s.groups| && DraftIn(s.groups[i], draftId).Some?
            && (DraftIn(s.groups[i], draftId).value.created.Some? ==> pair.0 == s)
            && (DraftIn(s.groups[i], draftId).value.created.None? ==> Current(pair.0.groups[i], pair.1.decisionId))
            && (forall x :: DraftIn(pair.0.groups[i], x) ==
                              if x == draftId
                              then Some(DraftIn(s.groups[i], x).value.(created := Some(env.decisionId(id, draftId))))
                              else DraftIn(s.groups[i], x))
            && (forall p: Principal, d :: d != pair.1.decisionId ==> Authorize(pair.0, p, d) == Authorize(s, p, d))
  {
    var i := OrganizedGroup(s, who, id).value;
    var g := s.groups[i];
    var pair := Reserve(env, s, who, id, draftId, revision, enabled).value;
    var k := FindDraft(g.drafts, draftId).value;
    assert DraftOk(env, g, g.drafts[k]) by { assert GroupOk(env, s.accounts, g); }
    ReserveKeeps(env, s, who, id, draftId, revision, enabled);
    ReservedNew(env, s, who, id, draftId, revision, enabled);
    if g.drafts[k].created.None? { NewReservation(env, s, i, k, pair.1.decisionId, pair.0); }
  }

  lemma NewReservation(env: Env, s: State, i: nat, k: nat, decision: Id, next: State)
    requires i < |s.groups| && WellFormed(env, s) && WellFormed(env, next) && !Binds(s.groups[i], decision)
    requires k < |s.groups[i].drafts| && FindDraft(s.groups[i].drafts, s.groups[i].drafts[k].id) == Some(k)
    requires var g := s.groups[i];
             next == Put(s, i, g.(decisions := g.decisions + [Binding(decision, g.version, None, false)],
                                  drafts := g.drafts[k := g.drafts[k].(created := Some(decision))]))
    ensures Current(next.groups[i], decision)
    ensures forall x :: DraftIn(next.groups[i], x) ==
                          if x == s.groups[i].drafts[k].id
                          then Some(s.groups[i].drafts[k].(created := Some(decision))) else DraftIn(s.groups[i], x)
    ensures forall p: Principal, d :: d != decision ==> Authorize(next, p, d) == Authorize(s, p, d)
  {
    var g, g' := s.groups[i], next.groups[i];
    AppendedIsCurrent(g, decision);
    forall x { SameDrafts(g.drafts, g'.drafts, x); }
    forall p: Principal, d | d != decision ensures Authorize(next, p, d) == Authorize(s, p, d) {
      AppendedKeepsAnswer(s, i, g', Binding(decision, g.version, None, false), p, d);
    }
  }

  lemma CreatedIsLocked(env: Env, s: State, i: nat, x: Id, draftId: Id, revision: nat, title: string, objective: string,
                        content: nat, valid: bool)
    requires WellFormed(env, s) && i < |s.groups|
    requires DraftIn(s.groups[i], draftId).Some? && DraftIn(s.groups[i], draftId).value.created.Some?
    ensures Edit(env, s, x, s.groups[i].id, draftId, revision, title, objective, content, valid).Err?
  {
    if OrganizedGroup(s, x, s.groups[i].id).Ok? { OrganizedIs(env, s, x, s.groups[i].id, i); }
  }

  /** A reserved draft is locked: no edit of it goes through any more, by whomever and of whatever revision. */
  lemma ReservationLocks(env: Env, s: State, who: Id, id: Id, draftId: Id, revision: nat, enabled: bool, x: Id,
                         later: nat, title: string, objective: string, content: nat, valid: bool)
    requires Injective(env) && WellFormed(env, s) && Reserve(env, s, who, id, draftId, revision, enabled).Ok?
    ensures var next := Reserve(env, s, who, id, draftId, revision, enabled).value.0;
            Edit(env, next, x, id, draftId, later, title, objective, content, valid).Err?
  {
    var i := OrganizedGroup(s, who, id).value;
    var next := Reserve(env, s, who, id, draftId, revision, enabled).value.0;
    ReserveKeeps(env, s, who, id, draftId, revision, enabled);
    SameDrafts(s.groups[i].drafts, next.groups[i].drafts, draftId);
    CreatedIsLocked(env, next, i, x, draftId, later, title, objective, content, valid);
  }
}
