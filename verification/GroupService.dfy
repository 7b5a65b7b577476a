/** The service's transactions, step by step on the stored state, each proved against its transition. */
module GroupService {
  import opened Prelude
  import opened GroupState
  import T = GroupTransitions
  import opened GroupInvariant

  /** A transaction ends in the state its transition says, or refuses with that code and writes nothing. */
  ghost predicate Matches(spec: Result<State>, before: State, after: State, outcome: Result<()>) {
    match spec
    case Ok(next) => outcome == Ok(()) && after == next
    case Err(code) => outcome == Err(code) && after == before
  }

  class GroupStore {
    const env: Env
    var accounts: seq<Account>
    var groups: seq<Group>

    constructor (env: Env)
      requires Injective(env)
      ensures this.env == env && Stored() == EMPTY && Valid()
    {
      this.env := env;
      accounts, groups := [], [];
    }

    /** Distinct drafts get distinct decisions, and the stored state is in order. */
    ghost predicate Valid()
      reads this
    {
      Injective(env) && WellFormed(env, Stored())
    }

    function Stored(): State
      reads this
    {
      State(accounts, groups)
    }

    method Register(who: Id, verified: bool, emailHash: Id, name: string, username: Option<string>)
      returns (r: Result<()>)
      requires Valid()
      modifies this`accounts
      ensures Matches(T.Register(old(Stored()), who, verified, emailHash, name, username), old(Stored()), Stored(), r)
      ensures Valid()
    {
      if T.Register(Stored(), who, verified, emailHash, name, username).Ok? {
        RegisterKeeps(env, Stored(), who, verified, emailHash, name, username);
      }
      if !verified { return Err(Forbidden); }
      var found := FindAccount(accounts, who);
      if found.Some? {
        return if accounts[found.value].emailHash != emailHash then Err(Forbidden) else Ok(());
      }
      if |accounts| >= MAX_ACCOUNTS { return Err(Capacity); }
      if exists k :: 0 <= k < |accounts| && accounts[k].emailHash == emailHash { return Err(Forbidden); }
      accounts := accounts + [Account(who, emailHash, name, Pending, 1, username)];
      return Ok(());
    }

    method Operate(action: T.Action, subject: Id, expected: nat) returns (r: Result<()>)
      requires Valid()
      modifies this`accounts
      ensures Matches(T.Operate(old(Stored()), action, subject, expected), old(Stored()), Stored(), r)
      ensures Valid()
    {
      if T.Operate(Stored(), action, subject, expected).Ok? { OperateKeeps(env, Stored(), action, subject, expected); }
      var found := FindAccount(accounts, subject);
      if found.None? { return Err(OperatorRefused); }
      var target := accounts[found.value];
      var status := match action case Approve => Approved case Reject => Rejected case Disable => Disabled;
      if target.status == status { return Ok(()); }
      if target.version != expected { return Err(OperatorRefused); }
      if action == T.Reject && target.status != Pending { return Err(OperatorRefused); }
      target := target.(status := status);
      target := target.(version := target.version + 1);
      accounts := accounts[found.value := target];
      return Ok(());
    }

    method CreateGroup(who: Id, id: Id, name: string) returns (r: Result<()>)
      requires Valid()
      modifies this`groups
      ensures Matches(T.CreateGroup(old(Stored()), who, id, name), old(Stored()), Stored(), r)
      ensures Valid()
    {
      if T.CreateGroup(Stored(), who, id, name).Ok? { CreateGroupKeeps(env, Stored(), who, id, name); }
      if !IsApproved(accounts, who) { return Err(Forbidden); }
      var found := IndexOf(groups, (g: Group) => g.id == id);
      if found.Some? {
        var group := groups[found.value];
        if group.deleted || group.name != name { return Err(StaleContext); }
        return Ok(());
      }
      if |groups| >= MAX_GROUPS { return Err(Capacity); }
      groups := groups + [Group(id, name, who, 1, false, [who], [], [], [])];
      return Ok(());
    }

    method Invite(who: Id, id: Id, recipient: Id, replace: bool, token: Id, now: nat) returns (r: Result<()>)
      requires Valid()
      modifies this`groups
      ensures Matches(T.Invite(old(Stored()), who, id, recipient, replace, token, now), old(Stored()), Stored(), r)
      ensures Valid()
    {
      if T.Invite(Stored(), who, id, recipient, replace, token, now).Ok? {
        InviteKeeps(env, Stored(), who, id, recipient, replace, token, now);
      }
      var found := OrganizedGroup(Stored(), who, id);
      if found.Err? { return Err(found.code); }
      var group := groups[found.value];
      if T.MemberHolds(accounts, group, recipient) { return Err(InvalidCommand); }
      if T.LivePrior(group, recipient, now) && !replace { return Err(StaleContext); }
      group := group.(invitations := T.KeptInvitations(group, recipient, now));
      if |group.invitations| >= MAX_ITEMS { return Err(Capacity); }
      var expiresAt := now + INVITATION_MS;
      group := group.(invitations := group.invitations + [Invitation(recipient, token, expiresAt, None)]);
      groups := groups[found.value := group];
      return Ok(());
    }

    /** The live bindings at the prior version move to the next one; all others stay as they are. */
    static method CarryBindings(before: seq<Binding>, prior: nat) returns (decisions: seq<Binding>)
      ensures decisions == T.Carry(before, prior, prior + 1)
    {
      decisions := before;
      for k := 0 to |decisions|
        invariant |decisions| == |before|
        invariant forall j :: 0 <= j < k ==> decisions[j] == T.Carry(before, prior, prior + 1)[j]
        invariant forall j :: k <= j < |decisions| ==> decisions[j] == before[j]
      {
        if !decisions[k].deleted && decisions[k].version == prior {
          decisions := decisions[k := decisions[k].(version := prior + 1)];
        }
      }
      assert decisions == T.Carry(before, prior, prior + 1);
    }

    method Accept(who: Id, token: Id, inbox: Option<Id>, now: nat) returns (r: Result<()>)
      requires Valid()
      modifies this`groups
      ensures Matches(T.Accept(old(Stored()), who, token, inbox, now), old(Stored()), Stored(), r)
      ensures Valid()
    {
      if T.Accept(Stored(), who, token, inbox, now).Ok? { AcceptKeeps(env, Stored(), who, token, inbox, now); }
      if !IsApproved(accounts, who) { return Err(Forbidden); }
      var found := T.InvitedGroup(Stored(), token);
      if found.None? { return Err(NotFound); }
      var group := groups[found.value];
      if inbox.Some? && inbox.value != group.id { return Err(NotFound); }
      var at := T.FindInvitation(group, token).value;
      var invitation := group.invitations[at];
      if Some(invitation.recipientHash) != EmailOf(accounts, who) || invitation.expiresAt <= now {
        return Err(NotFound);
      }
      if invitation.acceptedBy.Some? {
        if invitation.acceptedBy.value != who || who !in group.members { return Err(NotFound); }
        return Ok(());
      }
      if |group.members| >= MAX_MEMBERS { return Err(Capacity); }
      group := Admit(group, who, at);
      groups := groups[found.value := group];
      return Ok(());
    }

    /** Whoever is new to the group joins it with a new version; the invitation is taken up either way. */
    static method Admit(before: Group, who: Id, at: nat) returns (group: Group)
      requires at < |before.invitations|
      ensures var accepted := before.invitations[at].(acceptedBy := Some(who));
              group == T.Joined(before, who).(invitations := before.invitations[at := accepted])
    {
      group := before;
      if who !in group.members {
        var prior := group.version;
        var decisions := CarryBindings(group.decisions, prior);
        group := group.(members := group.members + [who], version := prior + 1, decisions := decisions);
      }
      group := group.(invitations := group.invitations[at := group.invitations[at].(acceptedBy := Some(who))]);
    }

    method Rename(who: Id, id: Id, version: nat, decision: Option<Id>, previous: string, name: string)
      returns (r: Result<()>)
      requires Valid()
      modifies this`groups
      ensures Matches(T.Rename(old(Stored()), who, id, version, decision, previous, name), old(Stored()), Stored(), r)
      ensures Valid()
    {
      if T.Rename(Stored(), who, id, version, decision, previous, name).Ok? {
        RenameKeeps(env, Stored(), who, id, version, decision, previous, name);
      }
      var found := OrganizedGroup(Stored(), who, id);
      if found.Err? { return Err(found.code); }
      var group := groups[found.value];
      if group.version != version { return Err(StaleContext); }
      var shown := group.name;
      var at := 0;
      if decision.Some? {
        var binding := IndexOf(group.decisions, (b: Binding) => b.id == decision.value && !b.deleted);
        if binding.None? { return Err(NotFound); }
        at := binding.value;
        shown := T.Titled(group, group.decisions[at]);
      }
      if shown != previous && shown != name { return Err(StaleContext); }
      if decision.Some? {
        group := group.(decisions := group.decisions[at := group.decisions[at].(title := Some(name))]);
      } else {
        group := group.(name := name);
      }
      groups := groups[found.value := group];
      return Ok(());
    }

    /** Every draft the decision was created from is marked deleted. */
    static method RetireDrafts(before: seq<Draft>, item: Id) returns (drafts: seq<Draft>)
      ensures drafts == T.Retired(before, (d: Draft) => d.created == Some(item))
    {
      drafts := before;
      for k := 0 to |drafts|
        invariant |drafts| == |before|
        invariant forall j :: 0 <= j < k ==>
                    drafts[j] == if before[j].created == Some(item) then before[j].(deleted := true) else before[j]
        invariant forall j :: k <= j < |drafts| ==> drafts[j] == before[j]
      {
        if drafts[k].created == Some(item) { drafts := drafts[k := drafts[k].(deleted := true)]; }
      }
      assert drafts == T.Retired(before, (d: Draft) => d.created == Some(item));
    }

    method RemoveItem(who: Id, id: Id, version: nat, kind: T.ItemKind, item: Id) returns (r: Result<()>)
      requires Valid()
      modifies this`groups
      ensures Matches(T.RemoveItem(old(Stored()), who, id, version, kind, item), old(Stored()), Stored(), r)
      ensures Valid()
    {
      if T.RemoveItem(Stored(), who, id, version, kind, item).Ok? {
        RemoveItemKeeps(env, Stored(), who, id, version, kind, item);
      }
      var found := OrganizedGroup(Stored(), who, id);
      if found.Err? { return Err(found.code); }
      var group := groups[found.value];
      if group.version != version { return Err(StaleContext); }
      if kind == T.DraftItem {
        var at := FindDraft(group.drafts, item);
        if at.None? { return Err(NotFound); }
        if group.drafts[at.value].created.Some? { return Err(StaleContext); }
        group := group.(drafts := group.drafts[at.value := group.drafts[at.value].(deleted := true)]);
      } else {
        var at := FindBinding(group.decisions, item);
        if at.None? { return Err(NotFound); }
        var drafts := RetireDrafts(group.drafts, item);
        group := group.(decisions := group.decisions[at.value := group.decisions[at.value].(deleted := true)],
                        drafts := drafts);
      }
      groups := groups[found.value := group];
      return Ok(());
    }

    method Remove(who: Id, id: Id, member: Id, version: nat) returns (r: Result<()>)
      requires Valid()
      modifies this`groups
      ensures Matches(T.Remove(env, old(Stored()), who, id, member, version), old(Stored()), Stored(), r)
      ensures Valid()
    {
      if T.Remove(env, Stored(), who, id, member, version).Ok? { RemoveKeeps(env, Stored(), who, id, member, version); }
      var found := OrganizedGroup(Stored(), who, id);
      if found.Err? { return Err(found.code); }
      var group := groups[found.value];
      if group.version != version { return Err(StaleContext); }
      var at := IndexOf(group.members, (m: Id) => env.memberId(m) == member);
      if at.None? || group.members[at.value] == who { return Err(InvalidCommand); }
      var target := group.members[at.value];
      group := group.(members := Filter(group.members, (m: Id) => m != target));
      group := group.(version := group.version + 1);
      groups := groups[found.value := group];
      return Ok(());
    }

    method DeleteGroup(who: Id, id: Id, version: nat) returns (r: Result<()>)
      requires Valid()
      modifies this`groups
      ensures Matches(T.DeleteGroup(old(Stored()), who, id, version), old(Stored()), Stored(), r)
      ensures Valid()
    {
      if T.DeleteGroup(Stored(), who, id, version).Ok? { DeleteGroupKeeps(env, Stored(), who, id, version); }
      var found := OrganizedGroup(Stored(), who, id);
      if found.Err? { return Err(found.code); }
      var group := groups[found.value];
      if group.version != version { return Err(StaleContext); }
      var decisions, drafts := group.decisions, group.drafts;
      for k := 0 to |decisions|
        invariant |decisions| == |group.decisions|
        invariant forall j :: 0 <= j < k ==> decisions[j] == group.decisions[j].(deleted := true)
        invariant forall j :: k <= j < |decisions| ==> decisions[j] == group.decisions[j]
      {
        decisions := decisions[k := decisions[k].(deleted := true)];
      }
      assert decisions == T.Closed(group.decisions);
      for k := 0 to |drafts|
        invariant |drafts| == |group.drafts|
        invariant forall j :: 0 <= j < k ==> drafts[j] == group.drafts[j].(deleted := true)
        invariant forall j :: k <= j < |drafts| ==> drafts[j] == group.drafts[j]
      {
        drafts := drafts[k := drafts[k].(deleted := true)];
      }
      assert drafts == T.Retired(group.drafts, (d: Draft) => true);
      group := group.(deleted := true, version := group.version + 1, decisions := decisions, drafts := drafts);
      groups := groups[found.value := group];
      return Ok(());
    }

    method BindDecision(who: Id, id: Id, decision: Id, version: nat) returns (r: Result<()>)
      requires Valid()
      modifies this`groups
      ensures Matches(T.BindDecision(old(Stored()), who, id, decision, version), old(Stored()), Stored(), r)
      ensures !Derived(env, decision) ==> Valid()
    {
      if T.BindDecision(Stored(), who, id, decision, version).Ok? && !Derived(env, decision) {
        BindDecisionKeeps(env, Stored(), who, id, decision, version);
      }
      var found := OrganizedGroup(Stored(), who, id);
      if found.Err? { return Err(found.code); }
      var group := groups[found.value];
      if group.version != version { return Err(StaleContext); }
      var prior := FindBinding(group.decisions, decision);
      if prior.Some? {
        if group.decisions[prior.value].deleted { return Err(NotFound); }
        if group.decisions[prior.value].version != version { return Err(StaleContext); }
        return Ok(());
      }
      if |group.decisions| >= MAX_ITEMS { return Err(Capacity); }
      group := group.(decisions := group.decisions + [Binding(decision, version, None, false)]);
      groups := groups[found.value := group];
      return Ok(());
    }

    method SaveDraft(who: Id, id: Id, rosterVersion: nat, draftId: Id, bodyHash: Id, frame: Frame,
                     questions: seq<string>,
                     previous: Option<(Id, nat)>, enabled: bool) returns (r: Result<()>)
      requires Valid()
      modifies this`groups
      ensures Matches(T.SaveDraft(old(Stored()), who, id, rosterVersion, draftId, bodyHash, frame, questions,
                                  previous, enabled),
                      old(Stored()), Stored(), r)
      ensures Valid()
    {
      if T.SaveDraft(Stored(), who, id, rosterVersion, draftId, bodyHash, frame, questions, previous, enabled).Ok? {
        SaveDraftKeeps(env, Stored(), who, id, rosterVersion, draftId, bodyHash, frame, questions, previous, enabled);
      }
      var found := OrganizedGroup(Stored(), who, id);
      if found.Err? { return Err(found.code); }
      var group := groups[found.value];
      if group.version != rosterVersion || !enabled || !T.PreviousKept(group, previous) { return Err(StaleContext); }
      var existing := FindDraft(group.drafts, draftId);
      if existing.Some? {
        if group.drafts[existing.value].deleted { return Err(NotFound); }
        if group.drafts[existing.value].bodyHash != bodyHash { return Err(StaleContext); }
        return Ok(());
      }
      if |group.drafts| >= MAX_ITEMS { return Err(Capacity); }
      group := group.(drafts := group.drafts + [Draft(draftId, bodyHash, 1, rosterVersion, frame, questions, None,
                                                      false)]);
      groups := groups[found.value := group];
      return Ok(());
    }

    method Edit(who: Id, id: Id, draftId: Id, revision: nat, title: string, objective: string, content: nat,
                valid: bool)
      returns (r: Result<()>)
      requires Valid()
      modifies this`groups
      ensures Matches(T.Edit(env, old(Stored()), who, id, draftId, revision, title, objective, content, valid),
                      old(Stored()), Stored(), r)
      ensures Valid()
    {
      if T.Edit(env, Stored(), who, id, draftId, revision, title, objective, content, valid).Ok? {
        EditKeeps(env, Stored(), who, id, draftId, revision, title, objective, content, valid);
      }
      var found := OrganizedGroup(Stored(), who, id);
      if found.Err? { return Err(found.code); }
      var group := groups[found.value];
      var at := FindDraft(group.drafts, draftId);
      if at.None? { return Err(NotFound); }
      var draft := group.drafts[at.value];
      if draft.deleted { return Err(NotFound); }
      if draft.created.Some? || revision != draft.revision || draft.groupVersion != group.version {
        return Err(StaleContext);
      }
      if !valid { return Err(InvalidCommand); }
      draft := draft.(frame := draft.frame.(title := title, objective := objective, content := content));
      draft := draft.(revision := draft.revision + 1);
      var question := env.question(draft.frame);
      if question.Some? && question.value !in draft.questions {
        var asked := draft.questions + [question.value];
        assert |draft.questions| >= 12 ==> asked[..12] == draft.questions[..12];
        draft := draft.(questions := if |asked| <= 12 then asked else asked[..12]);
      }
      groups := groups[found.value := group.(drafts := group.drafts[at.value := draft])];
      return Ok(());
    }

    /** The members as the decision is to have them, if each is approved and named as a participant. */
    method CollectMembers(group: Group, frame: Frame) returns (r: Option<seq<T.Member>>)
      ensures r == if T.RosterFits(env, accounts, group, frame) then Some(T.Memberships(env, group.members)) else None
    {
      var members: seq<T.Member> := [];
      for k := 0 to |group.members|
        invariant |members| == k
        invariant forall j :: 0 <= j < k ==>
                    && members[j] == T.Member(group.members[j], env.memberId(group.members[j]))
                    && IsApproved(accounts, group.members[j]) && env.memberId(group.members[j]) in frame.participants
      {
        if !IsApproved(accounts, group.members[k]) || env.memberId(group.members[k]) !in frame.participants {
          return None;
        }
        members := members + [T.Member(group.members[k], env.memberId(group.members[k]))];
      }
      assert members == T.Memberships(env, group.members);
      return Some(members);
    }

    method Reserve(who: Id, id: Id, draftId: Id, revision: nat, enabled: bool) returns (r: Result<T.Attempt>)
      requires Valid()
      modifies this`groups
      ensures match T.Reserve(env, old(Stored()), who, id, draftId, revision, enabled)
              case Ok(pair) => r == Ok(pair.1) && Stored() == pair.0
              case Err(code) => r == Err(code) && Stored() == old(Stored())
      ensures Valid()
    {
      if T.Reserve(env, Stored(), who, id, draftId, revision, enabled).Ok? {
        ReserveKeeps(env, Stored(), who, id, draftId, revision, enabled);
      }
      var found := OrganizedGroup(Stored(), who, id);
      if found.Err? { return Err(found.code); }
      var group := groups[found.value];
      var at := FindDraft(group.drafts, draftId);
      if at.None? { return Err(NotFound); }
      var draft := group.drafts[at.value];
      if draft.deleted { return Err(NotFound); }
      if revision != draft.revision || draft.groupVersion != group.version { return Err(StaleContext); }
      if draft.questions != [] || !env.hasCandidates(draft.frame) { return Err(NeedsClarification); }
      if !enabled { return Err(StaleContext); }
      var roster := CollectMembers(group, draft.frame);
      if roster.None? { return Err(StaleContext); }
      var members := roster.value;
      var decision := env.decisionId(id, draftId);
      if draft.created.None? {
        if |group.decisions| >= MAX_ITEMS { return Err(InvalidCommand); }
        group := group.(decisions := group.decisions + [Binding(decision, group.version, None, false)]);
        group := group.(drafts := group.drafts[at.value := draft.(created := Some(decision))]);
      }
      groups := groups[found.value := group];
      return Ok(T.Attempt(id, draftId, draft.revision, draft.groupVersion, draft.frame, members, decision, who));
    }

    method Rebind(who: Id, id: Id, decision: Id, previewVersion: nat, rosterVersion: nat, roster: seq<Id>)
      returns (r: Result<()>)
      requires Valid()
      modifies this`groups
      ensures Matches(T.Rebind(old(Stored()), who, id, decision, previewVersion, rosterVersion, roster),
                      old(Stored()), Stored(), r)
      ensures Valid()
    {
      if T.Rebind(Stored(), who, id, decision, previewVersion, rosterVersion, roster).Ok? {
        RebindKeeps(env, Stored(), who, id, decision, previewVersion, rosterVersion, roster);
      }
      var found := OrganizedGroup(Stored(), who, id);
      if found.Err? { return Err(found.code); }
      var group := groups[found.value];
      if group.version != previewVersion || rosterVersion != previewVersion { return Err(StaleContext); }
      if exists k :: 0 <= k < |roster| && (roster[k] !in group.members || !IsApproved(accounts, roster[k])) {
        return Err(StaleContext);
      }
      var at := FindBinding(group.decisions, decision);
      if at.None? || group.decisions[at.value].deleted { return Err(NotFound); }
      group := group.(decisions := group.decisions[at.value := group.decisions[at.value].(version := group.version)]);
      groups := groups[found.value := group];
      return Ok(());
    }

    method TransactOnPeople(e: T.Event) returns (r: Result<()>)
      requires Valid()
      requires e.RegisterE? || e.OperateE? || e.CreateGroupE? || e.InviteE? || e.AcceptE? || e.RemoveE?
               || e.DeleteGroupE?
      modifies this
      ensures Matches(T.Apply(env, old(Stored()), e), old(Stored()), Stored(), r) && Valid()
    {
      match e
      case RegisterE(who, verified, emailHash, name, username) =>
        r := Register(who, verified, emailHash, name, username);
      case OperateE(action, subject, expected) => r := Operate(action, subject, expected);
      case CreateGroupE(who, id, name) => r := CreateGroup(who, id, name);
      case InviteE(who, id, recipient, replace, token, now) => r := Invite(who, id, recipient, replace, token, now);
      case AcceptE(who, token, inbox, now) => r := Accept(who, token, inbox, now);
      case RemoveE(who, id, member, version) => r := Remove(who, id, member, version);
      case DeleteGroupE(who, id, version) => r := DeleteGroup(who, id, version);
    }

    method TransactOnItems(e: T.Event) returns (r: Result<()>)
      requires Valid() && (e.RenameE? || e.RemoveItemE? || e.BindDecisionE? || e.RebindE?)
      modifies this
      ensures Matches(T.Apply(env, old(Stored()), e), old(Stored()), Stored(), r)
      ensures Allowed(env, e) ==> Valid()
    {
      match e
      case RenameE(who, id, version, decision, previous, name) =>
        r := Rename(who, id, version, decision, previous, name);
      case RemoveItemE(who, id, version, kind, item) => r := RemoveItem(who, id, version, kind, item);
      case BindDecisionE(who, id, bound, version) => r := BindDecision(who, id, bound, version);
      case RebindE(who, id, bound, previewVersion, rosterVersion, roster) =>
        r := Rebind(who, id, bound, previewVersion, rosterVersion, roster);
    }

    method TransactOnDrafts(e: T.Event) returns (r: Result<()>)
      requires Valid() && (e.SaveDraftE? || e.EditE? || e.ReserveE?)
      modifies this
      ensures Matches(T.Apply(env, old(Stored()), e), old(Stored()), Stored(), r) && Valid()
    {
      match e
      case SaveDraftE(who, id, rosterVersion, draftId, bodyHash, frame, questions, continued, enabled) =>
        r := SaveDraft(who, id, rosterVersion, draftId, bodyHash, frame, questions, continued, enabled);
      case EditE(who, id, draftId, revision, title, objective, content, valid) =>
        r := Edit(who, id, draftId, revision, title, objective, content, valid);
      case ReserveE(who, id, draftId, revision, enabled) =>
        var attempt := Reserve(who, id, draftId, revision, enabled);
        r := match attempt case Ok(_) => Ok(()) case Err(code) => Err(code);
    }

    /** One transaction of any kind. */
    method Transact(e: T.Event) returns (r: Result<()>)
      requires Valid()
      modifies this
      ensures Matches(T.Apply(env, old(Stored()), e), old(Stored()), Stored(), r)
      ensures Stored() == T.Step(env, old(Stored()), e)
      ensures Allowed(env, e) ==> Valid()
    {
      if e.SaveDraftE? || e.EditE? || e.ReserveE? {
        r := TransactOnDrafts(e);
      } else if e.RenameE? || e.RemoveItemE? || e.BindDecisionE? || e.RebindE? {
        r := TransactOnItems(e);
      } else {
        r := TransactOnPeople(e);
      }
    }
  }
}
