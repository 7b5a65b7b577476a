/** What each repository transaction does to the stored state, as a function of the state before it. */
module GroupTransitions {
  import opened Prelude
  import opened GroupState

  datatype ItemKind = DraftItem | DecisionItem
  datatype Action = Approve | Reject | Disable

  /** One membership of a created decision. */
  datatype Member = Member(subject: Id, participantId: Id)

  /** What a creation attempt carries away from its reservation. */
  datatype Attempt = Attempt(groupId: Id, draftId: Id, revision: nat, groupVersion: nat, frame: Frame,
                             members: seq<Member>, decisionId: Id, creator: Id)

  function Register(s: State, who: Id, verified: bool, emailHash: Id, name: string,
                    username: Option<string>): Result<State> {
    if !verified then Err(Forbidden)
    else match FindAccount(s.accounts, who)
      case Some(i) => if s.accounts[i].emailHash != emailHash then Err(Forbidden) else Ok(s)
      case None =>
        if |s.accounts| >= MAX_ACCOUNTS then Err(Capacity)
        else if exists k :: 0 <= k < |s.accounts| && s.accounts[k].emailHash == emailHash then Err(Forbidden)
        else Ok(s.(accounts := s.accounts + [Account(who, emailHash, name, Pending, 1, username)]))
  }

  function Operate(s: State, action: Action, subject: Id, expected: nat): Result<State> {
    match FindAccount(s.accounts, subject)
    case None => Err(OperatorRefused)
    case Some(i) =>
      var target := s.accounts[i];
      var status := match action case Approve => Approved case Reject => Rejected case Disable => Disabled;
      if target.status == status then Ok(s)
      else if target.version != expected then Err(OperatorRefused)
      else if action == Reject && target.status != Pending then Err(OperatorRefused)
      else Ok(s.(accounts := s.accounts[i := target.(status := status, version := target.version + 1)]))
  }

  function CreateGroup(s: State, who: Id, id: Id, name: string): Result<State> {
    if !IsApproved(s.accounts, who) then Err(Forbidden)
    else match IndexOf(s.groups, (g: Group) => g.id == id)
      case Some(i) => if s.groups[i].deleted || s.groups[i].name != name then Err(StaleContext) else Ok(s)
      case None =>
        if |s.groups| >= MAX_GROUPS then Err(Capacity)
        else Ok(s.(groups := s.groups + [Group(id, name, who, 1, false, [who], [], [], [])]))
  }

  predicate LivePrior(g: Group, recipient: Id, now: nat) {
    exists k :: 0 <= k < |g.invitations| && g.invitations[k].recipientHash == recipient
                && g.invitations[k].acceptedBy.None? && g.invitations[k].expiresAt > now
  }

  predicate MemberHolds(accounts: seq<Account>, g: Group, email: Id) {
    exists k :: 0 <= k < |g.members| && EmailOf(accounts, g.members[k]) == Some(email)
  }

  function KeptInvitations(g: Group, recipient: Id, now: nat): seq<Invitation> {
    Filter(g.invitations, (v: Invitation) => v.recipientHash != recipient && v.expiresAt > now)
  }

  function Invite(s: State, who: Id, id: Id, recipient: Id, replace: bool, token: Id, now: nat): Result<State> {
    match OrganizedGroup(s, who, id)
    case Err(code) => Err(code)
    case Ok(i) =>
      var g := s.groups[i];
      if MemberHolds(s.accounts, g, recipient) then Err(InvalidCommand)
      else if LivePrior(g, recipient, now) && !replace then Err(StaleContext)
      else
        var kept := KeptInvitations(g, recipient, now);
        if |kept| >= MAX_ITEMS then Err(Capacity)
        else Ok(Put(s, i, g.(invitations := kept + [Invitation(recipient, token, now + INVITATION_MS, None)])))
  }

  /** Live bindings at the prior version move to the next version; all others stay as they are. */
  function Carry(decisions: seq<Binding>, prior: nat, next: nat): (r: seq<Binding>)
    ensures |r| == |decisions|
    ensures forall k :: 0 <= k < |r| ==>
              r[k] == if !decisions[k].deleted && decisions[k].version == prior
                      then decisions[k].(version := next) else decisions[k]
  {
    seq(|decisions|, k requires 0 <= k < |decisions| =>
      if !decisions[k].deleted && decisions[k].version == prior then decisions[k].(version := next) else decisions[k])
  }

  function Joined(g: Group, who: Id): Group {
    if who in g.members then g
    else g.(members := g.members + [who], version := g.version + 1,
            decisions := Carry(g.decisions, g.version, g.version + 1))
  }

  function FindInvitation(g: Group, token: Id): (r: Option<nat>)
    ensures r.Some? ==> r.value < |g.invitations| && g.invitations[r.value].tokenHash == token
  {
    IndexOf(g.invitations, (v: Invitation) => v.tokenHash == token)
  }

  function InvitedGroup(s: State, token: Id): (r: Option<nat>)
    ensures r.Some? ==>
              r.value < |s.groups| && !s.groups[r.value].deleted && FindInvitation(s.groups[r.value], token).Some?
  {
    IndexOf(s.groups, (g: Group) => !g.deleted && FindInvitation(g, token).Some?)
  }

  function Accept(s: State, who: Id, token: Id, inbox: Option<Id>, now: nat): Result<State> {
    if !IsApproved(s.accounts, who) then Err(Forbidden)
    else match InvitedGroup(s, token)
      case None => Err(NotFound)
      case Some(i) =>
        var g := s.groups[i];
        var at := FindInvitation(g, token).value;
        var v := g.invitations[at];
        if inbox.Some? && inbox.value != g.id then Err(NotFound)
        else if Some(v.recipientHash) != EmailOf(s.accounts, who) || v.expiresAt <= now then Err(NotFound)
        else if v.acceptedBy.Some? then
          if v.acceptedBy.value != who || who !in g.members then Err(NotFound) else Ok(s)
        else if |g.members| >= MAX_MEMBERS then Err(Capacity)
        else Ok(Put(s, i, Joined(g, who).(invitations := g.invitations[at := v.(acceptedBy := Some(who))])))
  }

  function Titled(g: Group, b: Binding): string {
    match b.title
    case Some(title) => title
    case None =>
      match IndexOf(g.drafts, (d: Draft) => d.created == Some(b.id))
      case Some(k) => g.drafts[k].frame.title
      case None => "Untitled decision"
  }

  function Rename(s: State, who: Id, id: Id, version: nat, decision: Option<Id>, previous: string,
                  name: string): Result<State> {
    match OrganizedGroup(s, who, id)
    case Err(code) => Err(code)
    case Ok(i) =>
      var g := s.groups[i];
      if g.version != version then Err(StaleContext)
      else if decision.None? then
        if g.name != previous && g.name != name then Err(StaleContext) else Ok(Put(s, i, g.(name := name)))
      else match IndexOf(g.decisions, (b: Binding) => b.id == decision.value && !b.deleted)
        case None => Err(NotFound)
        case Some(k) =>
          var shown := Titled(g, g.decisions[k]);
          if shown != previous && shown != name then Err(StaleContext)
          else Ok(Put(s, i, g.(decisions := g.decisions[k := g.decisions[k].(title := Some(name))])))
  }

  /** Every draft that passes the test is marked deleted. */
  function Retired(drafts: seq<Draft>, test: Draft -> bool): (r: seq<Draft>)
    ensures |r| == |drafts|
    ensures forall k :: 0 <= k < |r| ==> r[k] == if test(drafts[k]) then drafts[k].(deleted := true) else drafts[k]
  {
    seq(|drafts|, k requires 0 <= k < |drafts| => if test(drafts[k]) then drafts[k].(deleted := true) else drafts[k])
  }

  function RemoveItem(s: State, who: Id, id: Id, version: nat, kind: ItemKind, item: Id): Result<State> {
    match OrganizedGroup(s, who, id)
    case Err(code) => Err(code)
    case Ok(i) =>
      var g := s.groups[i];
      if g.version != version then Err(StaleContext)
      else match kind
        case DraftItem =>
          (match FindDraft(g.drafts, item)
           case None => Err(NotFound)
           case Some(k) =>
             if g.drafts[k].created.Some? then Err(StaleContext)
             else Ok(Put(s, i, g.(drafts := g.drafts[k := g.drafts[k].(deleted := true)]))))
        case DecisionItem =>
          (match FindBinding(g.decisions, item)
           case None => Err(NotFound)
           case Some(k) =>
             Ok(Put(s, i, g.(decisions := g.decisions[k := g.decisions[k].(deleted := true)],
                             drafts := Retired(g.drafts, (d: Draft) => d.created == Some(item))))))
  }

  function Remove(env: Env, s: State, who: Id, id: Id, member: Id, version: nat): Result<State> {
    match OrganizedGroup(s, who, id)
    case Err(code) => Err(code)
    case Ok(i) =>
      var g := s.groups[i];
      if g.version != version then Err(StaleContext)
      else match IndexOf(g.members, (m: Id) => env.memberId(m) == member)
        case None => Err(InvalidCommand)
        case Some(k) =>
          var target := g.members[k];
          if target == who then Err(InvalidCommand)
          else Ok(Put(s, i, g.(members := Filter(g.members, (m: Id) => m != target), version := g.version + 1)))
  }

  function Closed(decisions: seq<Binding>): (r: seq<Binding>)
    ensures |r| == |decisions|
    ensures forall k :: 0 <= k < |r| ==> r[k] == decisions[k].(deleted := true)
  {
    seq(|decisions|, k requires 0 <= k < |decisions| => decisions[k].(deleted := true))
  }

  function DeleteGroup(s: State, who: Id, id: Id, version: nat): Result<State> {
    match OrganizedGroup(s, who, id)
    case Err(code) => Err(code)
    case Ok(i) =>
      var g := s.groups[i];
      if g.version != version then Err(StaleContext)
      else Ok(Put(s, i, g.(deleted := true, version := g.version + 1, decisions := Closed(g.decisions),
                           drafts := Retired(g.drafts, (d: Draft) => true))))
  }

  function BindDecision(s: State, who: Id, id: Id, decision: Id, version: nat): Result<State> {
    match OrganizedGroup(s, who, id)
    case Err(code) => Err(code)
    case Ok(i) =>
      var g := s.groups[i];
      if g.version != version then Err(StaleContext)
      else match FindBinding(g.decisions, decision)
        case Some(k) =>
          if g.decisions[k].deleted then Err(NotFound)
          else if g.decisions[k].version != version then Err(StaleContext)
          else Ok(s)
        case None =>
          if |g.decisions| >= MAX_ITEMS then Err(Capacity)
          else Ok(Put(s, i, g.(decisions := g.decisions + [Binding(decision, version, None, false)])))
  }

  /** The draft a request continues from must still be there, unchanged. */
  predicate PreviousKept(g: Group, previous: Option<(Id, nat)>) {
    previous.None? || exists k :: 0 <= k < |g.drafts| && g.drafts[k].id == previous.value.0
                                  && !g.drafts[k].deleted && g.drafts[k].revision == previous.value.1
  }

  /** The second phase of drafting: the model has answered, and the group may have moved on meanwhile. */
  function SaveDraft(s: State, who: Id, id: Id, rosterVersion: nat, draftId: Id, bodyHash: Id, frame: Frame,
                     questions: seq<string>, previous: Option<(Id, nat)>, enabled: bool): Result<State> {
    match OrganizedGroup(s, who, id)
    case Err(code) => Err(code)
    case Ok(i) =>
      var g := s.groups[i];
      if g.version != rosterVersion || !enabled || !PreviousKept(g, previous) then Err(StaleContext)
      else match FindDraft(g.drafts, draftId)
        case Some(k) =>
          if g.drafts[k].deleted then Err(NotFound)
          else if g.drafts[k].bodyHash != bodyHash then Err(StaleContext)
          else Ok(s)
        case None =>
          if |g.drafts| >= MAX_ITEMS then Err(Capacity)
          else Ok(Put(s, i, g.(drafts := g.drafts + [Draft(draftId, bodyHash, 1, rosterVersion, frame, questions,
                                                           None, false)])))
  }

  function Asked(env: Env, frame: Frame, questions: seq<string>): seq<string> {
    var q := env.question(frame);
    if q.Some? && q.value !in questions
    then if |questions| < 12 then questions + [q.value] else questions[..12]
    else questions
  }

  function Edit(env: Env, s: State, who: Id, id: Id, draftId: Id, revision: nat, title: string, objective: string,
                content: nat, valid: bool): Result<State> {
    match OrganizedGroup(s, who, id)
    case Err(code) => Err(code)
    case Ok(i) =>
      var g := s.groups[i];
      match FindDraft(g.drafts, draftId)
      case None => Err(NotFound)
      case Some(k) =>
        var d := g.drafts[k];
        if d.deleted then Err(NotFound)
        else if d.created.Some? || revision != d.revision || d.groupVersion != g.version then Err(StaleContext)
        else if !valid then Err(InvalidCommand)
        else
          var frame := d.frame.(title := title, objective := objective, content := content);
          Ok(Put(s, i, g.(drafts := g.drafts[k := d.(frame := frame, revision := d.revision + 1,
                                                     questions := Asked(env, frame, d.questions))])))
  }

  /** Every member is approved and named as a participant of the frame. */
  predicate RosterFits(env: Env, accounts: seq<Account>, g: Group, frame: Frame) {
    forall k :: 0 <= k < |g.members| ==>
      IsApproved(accounts, g.members[k]) && env.memberId(g.members[k]) in frame.participants
  }

  function Memberships(env: Env, members: seq<Id>): (r: seq<Member>)
    ensures |r| == |members|
    ensures forall k :: 0 <= k < |r| ==> r[k] == Member(members[k], env.memberId(members[k]))
  {
    seq(|members|, k requires 0 <= k < |members| => Member(members[k], env.memberId(members[k])))
  }

  function ReservedGroup(g: Group, k: nat, decision: Id): Group
    requires k < |g.drafts|
  {
    if g.drafts[k].created.Some? then g
    else g.(decisions := g.decisions + [Binding(decision, g.version, None, false)],
            drafts := g.drafts[k := g.drafts[k].(created := Some(decision))])
  }

  /** The first phase of creation: lock the exact draft and bind its decision before anything is created. */
  function Reserve(env: Env, s: State, who: Id, id: Id, draftId: Id, revision: nat,
                   enabled: bool): Result<(State, Attempt)> {
    match OrganizedGroup(s, who, id)
    case Err(code) => Err(code)
    case Ok(i) =>
      var g := s.groups[i];
      match FindDraft(g.drafts, draftId)
      case None => Err(NotFound)
      case Some(k) =>
        var d := g.drafts[k];
        if d.deleted then Err(NotFound)
        else if revision != d.revision || d.groupVersion != g.version then Err(StaleContext)
        else if d.questions != [] || !env.hasCandidates(d.frame) then Err(NeedsClarification)
        else if !enabled || !RosterFits(env, s.accounts, g, d.frame) then Err(StaleContext)
        else
          var decision := env.decisionId(id, draftId);
          if d.created.None? && |g.decisions| >= MAX_ITEMS then Err(InvalidCommand)
          else Ok((Put(s, i, ReservedGroup(g, k, decision)),
                   Attempt(id, draftId, d.revision, d.groupVersion, d.frame, Memberships(env, g.members), decision,
                           who)))
  }

  /** The fence every decision write of a creation attempt is joined with. */
  function CreationFence(s: State, who: Id, a: Attempt): Result<()> {
    match OrganizedGroup(s, who, a.groupId)
    case Err(code) => Err(code)
    case Ok(i) =>
      var g := s.groups[i];
      if !(exists k :: 0 <= k < |g.decisions| && g.decisions[k].id == a.decisionId && !g.decisions[k].deleted)
         || !(exists k :: 0 <= k < |g.drafts| && g.drafts[k].id == a.draftId && !g.drafts[k].deleted) then Err(NotFound)
      else if g.version != a.groupVersion || |g.members| != |a.members|
              || exists k ::
                   0 <= k < |a.members|
                   && (a.members[k].subject !in g.members || !IsApproved(s.accounts, a.members[k].subject))
      then Err(StaleContext)
      else Ok(())
  }

  /** Rebinding a decision to the current roster; it is the only step that makes a stale binding current. */
  function Rebind(s: State, who: Id, id: Id, decision: Id, previewVersion: nat, rosterVersion: nat,
                  roster: seq<Id>): Result<State> {
    match OrganizedGroup(s, who, id)
    case Err(code) => Err(code)
    case Ok(i) =>
      var g := s.groups[i];
      if g.version != previewVersion || rosterVersion != previewVersion then Err(StaleContext)
      else if exists k :: 0 <= k < |roster| && (roster[k] !in g.members || !IsApproved(s.accounts, roster[k]))
              then Err(StaleContext)
      else match FindBinding(g.decisions, decision)
        case None => Err(NotFound)
        case Some(k) =>
          if g.decisions[k].deleted then Err(NotFound)
          else Ok(Put(s, i, g.(decisions := g.decisions[k := g.decisions[k].(version := g.version)])))
  }

  // ----- one transaction of any kind

  datatype Event =
    | RegisterE(who: Id, verified: bool, emailHash: Id, name: string, username: Option<string>)
    | OperateE(action: Action, subject: Id, expected: nat)
    | CreateGroupE(who: Id, id: Id, name: string)
    | InviteE(who: Id, id: Id, recipient: Id, replace: bool, token: Id, now: nat)
    | AcceptE(who: Id, token: Id, inbox: Option<Id>, now: nat)
    | RenameE(who: Id, id: Id, version: nat, decision: Option<Id>, previous: string, name: string)
    | RemoveItemE(who: Id, id: Id, version: nat, kind: ItemKind, item: Id)
    | RemoveE(who: Id, id: Id, member: Id, version: nat)
    | DeleteGroupE(who: Id, id: Id, version: nat)
    | BindDecisionE(who: Id, id: Id, bound: Id, version: nat)
    | SaveDraftE(who: Id, id: Id, rosterVersion: nat, draftId: Id, bodyHash: Id, frame: Frame, questions: seq<string>,
                 continued: Option<(Id, nat)>, enabled: bool)
    | EditE(who: Id, id: Id, draftId: Id, revision: nat, title: string, objective: string, content: nat, valid: bool)
    | ReserveE(who: Id, id: Id, draftId: Id, revision: nat, enabled: bool)
    | RebindE(who: Id, id: Id, bound: Id, previewVersion: nat, rosterVersion: nat, roster: seq<Id>)

  function Apply(env: Env, s: State, e: Event): Result<State> {
    match e
    case RegisterE(who, verified, emailHash, name, username) => Register(s, who, verified, emailHash, name, username)
    case OperateE(action, subject, expected) => Operate(s, action, subject, expected)
    case CreateGroupE(who, id, name) => CreateGroup(s, who, id, name)
    case InviteE(who, id, recipient, replace, token, now) => Invite(s, who, id, recipient, replace, token, now)
    case AcceptE(who, token, inbox, now) => Accept(s, who, token, inbox, now)
    case RenameE(who, id, version, decision, previous, name) => Rename(s, who, id, version, decision, previous, name)
    case RemoveItemE(who, id, version, kind, item) => RemoveItem(s, who, id, version, kind, item)
    case RemoveE(who, id, member, version) => Remove(env, s, who, id, member, version)
    case DeleteGroupE(who, id, version) => DeleteGroup(s, who, id, version)
    case BindDecisionE(who, id, bound, version) => BindDecision(s, who, id, bound, version)
    case SaveDraftE(who, id, rosterVersion, draftId, bodyHash, frame, questions, continued, enabled) =>
      SaveDraft(s, who, id, rosterVersion, draftId, bodyHash, frame, questions, continued, enabled)
    case EditE(who, id, draftId, revision, title, objective, content, valid) =>
      Edit(env, s, who, id, draftId, revision, title, objective, content, valid)
    case ReserveE(who, id, draftId, revision, enabled) =>
      (match Reserve(env, s, who, id, draftId, revision, enabled)
       case Err(code) => Err(code)
       case Ok(pair) => Ok(pair.0))
    case RebindE(who, id, bound, previewVersion, rosterVersion, roster) =>
      Rebind(s, who, id, bound, previewVersion, rosterVersion, roster)
  }

  /** A transaction that refuses throws, so nothing of it is written. */
  function Step(env: Env, s: State, e: Event): State {
    match Apply(env, s, e)
    case Ok(next) => next
    case Err(_) => s
  }

  function Run(env: Env, s: State, events: seq<Event>): State
    decreases |events|
  {
    if events == [] then s else Run(env, Step(env, s, events[0]), events[1..])
  }
}
