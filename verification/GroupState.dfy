/** The stored group state: accounts, groups, members, invitations, decision bindings and drafts. */
module GroupState {
  import opened Prelude

  /** Subjects, identifiers and digests are only ever compared, so a number stands for each of them. */
  type Id = nat

  datatype Status = Pending | Approved | Rejected | Disabled

  datatype Account = Account(subject: Id, emailHash: Id, displayName: string, status: Status, version: nat,
                             username: Option<string>)

  datatype Invitation = Invitation(recipientHash: Id, tokenHash: Id, expiresAt: nat, acceptedBy: Option<Id>)

  datatype Binding = Binding(id: Id, version: nat, title: Option<string>, deleted: bool)

  /** A public frame: the participants it names, and its variables and rules as one comparable value. */
  datatype Frame = Frame(title: string, objective: string, participants: seq<Id>, content: nat)

  datatype Draft = Draft(id: Id, bodyHash: Id, revision: nat, groupVersion: nat, frame: Frame,
                         questions: seq<string>, created: Option<Id>, deleted: bool)

  datatype Group = Group(id: Id, name: string, organizer: Id, version: nat, deleted: bool, members: seq<Id>,
                         invitations: seq<Invitation>, decisions: seq<Binding>, drafts: seq<Draft>)

  datatype State = State(accounts: seq<Account>, groups: seq<Group>)

  datatype Code = Forbidden | InvalidCommand | NotFound | StaleContext | NeedsClarification | Capacity | OperatorRefused

  datatype Result<+T> = Ok(value: T) | Err(code: Code)

  /** The digests and the candidate catalogue, as functions the service is given. */
  datatype Env = Env(memberId: Id -> Id, decisionId: (Id, Id) -> Id,
                     question: Frame -> Option<string>, hasCandidates: Frame -> bool)

  const MAX_ACCOUNTS: nat := 256
  const MAX_GROUPS: nat := 32
  const MAX_MEMBERS: nat := 16
  const MAX_ITEMS: nat := 64
  const INVITATION_MS: nat := 24 * 60 * 60_000

  function FindAccount(accounts: seq<Account>, who: Id): (r: Option<nat>)
    ensures r.Some? ==> r.value < |accounts| && accounts[r.value].subject == who
    ensures r.None? ==> forall k :: 0 <= k < |accounts| ==> accounts[k].subject != who
  {
    IndexOf(accounts, (a: Account) => a.subject == who)
  }

  function EmailOf(accounts: seq<Account>, who: Id): Option<Id> {
    match FindAccount(accounts, who)
    case None => None
    case Some(i) => Some(accounts[i].emailHash)
  }

  predicate IsApproved(accounts: seq<Account>, who: Id) {
    var found := FindAccount(accounts, who);
    found.Some? && accounts[found.value].status == Approved
  }

  /** The live group with this identifier that the caller belongs to. */
  function GroupOf(s: State, who: Id, id: Id): (r: Result<nat>)
    ensures r.Ok? ==> r.value < |s.groups| && s.groups[r.value].id == id && !s.groups[r.value].deleted
                      && who in s.groups[r.value].members && IsApproved(s.accounts, who)
  {
    if !IsApproved(s.accounts, who) then Err(Forbidden)
    else match IndexOf(s.groups, (g: Group) => g.id == id && !g.deleted && who in g.members)
      case None => Err(NotFound)
      case Some(i) => Ok(i)
  }

  /** As GroupOf, for the organizer only. */
  function OrganizedGroup(s: State, who: Id, id: Id): (r: Result<nat>)
    ensures r.Ok? ==> r.value < |s.groups| && s.groups[r.value].id == id && !s.groups[r.value].deleted
                      && who in s.groups[r.value].members && s.groups[r.value].organizer == who
  {
    match GroupOf(s, who, id)
    case Err(code) => Err(code)
    case Ok(i) => if s.groups[i].organizer != who then Err(Forbidden) else Ok(i)
  }

  function FindDraft(drafts: seq<Draft>, id: Id): (r: Option<nat>)
    ensures r.Some? ==> r.value < |drafts| && drafts[r.value].id == id
    ensures r.None? ==> forall k :: 0 <= k < |drafts| ==> drafts[k].id != id
  {
    IndexOf(drafts, (d: Draft) => d.id == id)
  }

  function FindBinding(decisions: seq<Binding>, id: Id): (r: Option<nat>)
    ensures r.Some? ==> r.value < |decisions| && decisions[r.value].id == id
    ensures r.None? ==> forall k :: 0 <= k < |decisions| ==> decisions[k].id != id
  {
    IndexOf(decisions, (b: Binding) => b.id == id)
  }

  function Put(s: State, i: nat, g: Group): State
    requires i < |s.groups|
  {
    s.(groups := s.groups[i := g])
  }

  // ----- who may touch a decision

  datatype Principal = Participant(subject: Id) | Display(subject: Id, room: Id)

  predicate Binds(g: Group, decision: Id) {
    FindBinding(g.decisions, decision).Some?
  }

  /** The first group that binds a decision; this is the group an authorization consults. */
  function BindingGroup(s: State, decision: Id): (r: Option<nat>)
    ensures r.Some? ==> r.value < |s.groups| && Binds(s.groups[r.value], decision)
    ensures r.Some? ==> forall k :: 0 <= k < r.value ==> !Binds(s.groups[k], decision)
    ensures r.None? ==> forall k :: 0 <= k < |s.groups| ==> !Binds(s.groups[k], decision)
  {
    IndexOf(s.groups, (g: Group) => Binds(g, decision))
  }

  /** A binding is current when it is live and carries its group's exact version. */
  predicate Current(g: Group, decision: Id) {
    var found := FindBinding(g.decisions, decision);
    found.Some? && !g.decisions[found.value].deleted && g.decisions[found.value].version == g.version
  }

  function Authorize(s: State, principal: Principal, decision: Id): Result<()> {
    var at := BindingGroup(s, decision);
    match principal
    case Display(subject, room) =>
      if room != decision then Err(Forbidden)
      else if FindAccount(s.accounts, subject).Some? && !IsApproved(s.accounts, subject) then Err(Forbidden)
      else if at.None? then Ok(())
      else
        var g := s.groups[at.value];
        if g.deleted then Err(NotFound)
        else if g.decisions[FindBinding(g.decisions, decision).value].deleted then Err(NotFound)
        else if g.decisions[FindBinding(g.decisions, decision).value].version != g.version then Err(StaleContext)
        else Ok(())
    case Participant(who) =>
      if !IsApproved(s.accounts, who) then Err(Forbidden)
      else if at.None? then Ok(())
      else
        var g := s.groups[at.value];
        if g.deleted then Err(NotFound)
        else if g.decisions[FindBinding(g.decisions, decision).value].deleted then Err(NotFound)
        else if GroupOf(s, who, g.id).Err? then Err(GroupOf(s, who, g.id).code)
        else if g.decisions[FindBinding(g.decisions, decision).value].version != g.version then Err(StaleContext)
        else Ok(())
  }
}
