/** Two runs from the empty state in which a removal does not, or does not for long, shut a decision bound by hand. */
module GroupWitnesses {
  import opened Prelude
  import opened GroupState
  import opened GroupTransitions
  import opened GroupInvariant
  import opened GroupHistory
  import opened GroupRevocation

  // ----- a digest as it should be

  /** Identifiers of derived decisions: one for each pair, and none of them is 9. */
  function Paired(x: Id, y: Id): Id { (x + y) * (x + y) + y + 10 }

  lemma Ordered(a: nat, b: nat, c: nat)
    requires a <= b
    ensures a * c <= b * c
  {
    assert (b - a) * c >= 0;
  }

  lemma SquaresApart(m: nat, n: nat)
    requires m < n
    ensures m * m + m < n * n
  {
    Ordered(m + 1, n, n);
    Ordered(m + 1, n, m + 1);
  }

  lemma SmallerSum(x: nat, y: nat, a: nat, b: nat)
    requires x + y < a + b
    ensures Paired(x, y) < Paired(a, b)
  {
    SquaresApart(x + y, a + b);
  }

  const SAMPLE: Env := Env((x: Id) => x, Paired, (f: Frame) => None, (f: Frame) => true)

  /** The digest functions may well be as the witnesses want them. */
  lemma SampleIsSuitable()
    ensures Suitable(SAMPLE)
  {
    forall a, b, x, y | SAMPLE.decisionId(a, b) == SAMPLE.decisionId(x, y) ensures a == x && b == y {
      if a + b < x + y { SmallerSum(a, b, x, y); }
      if x + y < a + b { SmallerSum(x, y, a, b); }
    }
  }

  ghost predicate Suitable(env: Env) {
    Injective(env) && !Derived(env, 9) && env.memberId(1) != env.memberId(2)
  }

  // ----- two people, two groups

  const PEOPLE: seq<Account> := [Account(1, 11, "Ann", Approved, 2, None), Account(2, 12, "Ben", Approved, 2, None)]

  function Pair(id: Id, name: string, token: Id, decisions: seq<Binding>): Group {
    Group(id, name, 1, 2, false, [1, 2], [Invitation(12, token, INVITATION_MS, Some(2))], decisions, [])
  }

  function Alone(id: Id, name: string, invitations: seq<Invitation>): Group {
    Group(id, name, 1, 1, false, [1], invitations, [], [])
  }

  const SETUP: seq<Event> :=
    [RegisterE(1, true, 11, "Ann", None), RegisterE(2, true, 12, "Ben", None), OperateE(Approve, 1, 1),
     OperateE(Approve, 2, 1)]

  function Gather(id: Id, name: string, token: Id): seq<Event> {
    [CreateGroupE(1, id, name), InviteE(1, id, 12, false, token, 0), AcceptE(2, token, None, 0)]
  }

  lemma {:induction false} RunSnoc(env: Env, s: State, events: seq<Event>, e: Event)
    ensures Run(env, s, events + [e]) == Step(env, Run(env, s, events), e)
    decreases |events|
  {
    if events == [] {
      assert [e][1..] == [] && events + [e] == [e];
    } else {
      assert (events + [e])[1..] == events[1..] + [e];
      RunSnoc(env, Step(env, s, events[0]), events[1..], e);
    }
  }

  lemma {:induction false} RunConcat(env: Env, s: State, first: seq<Event>, second: seq<Event>)
    ensures Run(env, s, first + second) == Run(env, Run(env, s, first), second)
    decreases |first|
  {
    if first == [] {
      assert first + second == second;
    } else {
      assert (first + second)[1..] == first[1..] + second;
      RunConcat(env, Step(env, s, first[0]), first[1..], second);
    }
  }

  lemma AnnAndBen()
    ensures FindAccount(PEOPLE, 1) == Some(0) && FindAccount(PEOPLE, 2) == Some(1)
    ensures EmailOf(PEOPLE, 1) == Some(11) && EmailOf(PEOPLE, 2) == Some(12)
    ensures IsApproved(PEOPLE, 1) && IsApproved(PEOPLE, 2)
  {
    assert PEOPLE[0].subject == 1 && PEOPLE[1].subject == 2;
  }

  lemma SetupRuns(env: Env)
    ensures Run(env, EMPTY, SETUP) == State(PEOPLE, [])
  {
    var ann, ben := Account(1, 11, "Ann", Pending, 1, None), Account(2, 12, "Ben", Pending, 1, None);
    var s1, s2 := State([ann], []), State([ann, ben], []);
    var s3 := State([PEOPLE[0], ben], []);
    assert Step(env, EMPTY, SETUP[0]) == s1;
    assert s1.accounts[0].emailHash == 11;
    assert Step(env, s1, SETUP[1]) == s2;
    assert s2.accounts[0].subject == 1 && s3.accounts[1].subject == 2;
    assert Step(env, s2, SETUP[2]) == s3;
    assert FindAccount(s3.accounts, 2) == Some(1);
    assert Step(env, s3, SETUP[3]) == State(PEOPLE, []);
    RunSnoc(env, EMPTY, [], SETUP[0]);
    RunSnoc(env, EMPTY, [SETUP[0]], SETUP[1]);
    RunSnoc(env, EMPTY, [SETUP[0], SETUP[1]], SETUP[2]);
    RunSnoc(env, EMPTY, [SETUP[0], SETUP[1], SETUP[2]], SETUP[3]);
    assert [] + [SETUP[0]] == [SETUP[0]] && [SETUP[0]] + [SETUP[1]] == [SETUP[0], SETUP[1]];
    assert [SETUP[0], SETUP[1]] + [SETUP[2]] == [SETUP[0], SETUP[1], SETUP[2]];
    assert [SETUP[0], SETUP[1], SETUP[2]] + [SETUP[3]] == SETUP;
  }

  /** The organizer finds the last group there is. */
  lemma LastIsFound(s: State, who: Id)
    requires s.groups != [] && IsApproved(s.accounts, who)
    requires var g := s.groups[|s.groups| - 1]; !g.deleted && who in g.members && g.organizer == who
    requires forall k :: 0 <= k < |s.groups| - 1 ==> s.groups[k].id != s.groups[|s.groups| - 1].id
    ensures OrganizedGroup(s, who, s.groups[|s.groups| - 1].id) == Ok(|s.groups| - 1)
  {
    var n := |s.groups| - 1;
    var g := s.groups[n];
    assert g.id == g.id && !g.deleted && who in g.members;
  }

  /** Ann makes a group and Ben joins it, whatever groups there are before. */
  lemma GatherRuns(env: Env, before: seq<Group>, id: Id, name: string, token: Id)
    requires |before| < MAX_GROUPS
    requires forall k :: 0 <= k < |before| ==> before[k].id != id
    requires forall k, j :: 0 <= k < |before| && 0 <= j < |before[k].invitations| ==>
               before[k].invitations[j].tokenHash != token
    ensures Run(env, State(PEOPLE, before), Gather(id, name, token))
            == State(PEOPLE, before + [Pair(id, name, token, [])])
  {
    AnnAndBen();
    var n := |before|;
    var events := Gather(id, name, token);
    var open := Invitation(12, token, INVITATION_MS, None);
    var s0 := State(PEOPLE, before);
    var s1 := State(PEOPLE, before + [Alone(id, name, [])]);
    var s2 := State(PEOPLE, before + [Alone(id, name, [open])]);
    var s3 := State(PEOPLE, before + [Pair(id, name, token, [])]);
    assert Step(env, s0, events[0]) == s1;
    LastIsFound(s1, 1);
    GatherInvite(env, before, id, name, token);
    GatherAccept(env, before, id, name, token);
    assert Step(env, s2, events[2]) == s3;
    RunSnoc(env, s0, [], events[0]);
    RunSnoc(env, s0, [events[0]], events[1]);
    RunSnoc(env, s0, [events[0], events[1]], events[2]);
    assert [] + [events[0]] == [events[0]] && [events[0]] + [events[1]] == [events[0], events[1]];
    assert [events[0], events[1]] + [events[2]] == events;
  }

  lemma GatherInvite(env: Env, before: seq<Group>, id: Id, name: string, token: Id)
    requires forall k :: 0 <= k < |before| ==> before[k].id != id
    ensures Step(env, State(PEOPLE, before + [Alone(id, name, [])]), InviteE(1, id, 12, false, token, 0)) ==
            State(PEOPLE, before + [Alone(id, name, [Invitation(12, token, INVITATION_MS, None)])])
  {
    AnnAndBen();
    var s := State(PEOPLE, before + [Alone(id, name, [])]);
    var g, open := Alone(id, name, []), Invitation(12, token, INVITATION_MS, None);
    assert s.groups[|before|] == g;
    LastIsFound(s, 1);
    assert !MemberHolds(s.accounts, g, 12);
    assert KeptInvitations(g, 12, 0) == [] && [] + [open] == [open];
    assert Put(s, |before|, Alone(id, name, [open])).groups == before + [Alone(id, name, [open])];
  }

  lemma GatherAccept(env: Env, before: seq<Group>, id: Id, name: string, token: Id)
    requires forall k, j :: 0 <= k < |before| && 0 <= j < |before[k].invitations| ==>
               before[k].invitations[j].tokenHash != token
    ensures var s := State(PEOPLE, before + [Alone(id, name, [Invitation(12, token, INVITATION_MS, None)])]);
            Step(env, s, AcceptE(2, token, None, 0)) == State(PEOPLE, before + [Pair(id, name, token, [])])
  {
    AnnAndBen();
    var n := |before|;
    var g := Alone(id, name, [Invitation(12, token, INVITATION_MS, None)]);
    var s := State(PEOPLE, before + [g]);
    assert g.invitations[0].tokenHash == token;
    assert FindInvitation(g, token) == Some(0);
    forall k | 0 <= k < n ensures FindInvitation(s.groups[k], token).None? { assert s.groups[k] == before[k]; }
    assert s.groups[n] == g;
    assert InvitedGroup(s, token) == Some(n);
    assert Joined(g, 2) == g.(members := [1, 2], version := 2, decisions := []);
    assert g.invitations[0 := g.invitations[0].(acceptedBy := Some(2))]
           == [Invitation(12, token, INVITATION_MS, Some(2))];
    assert Put(s, n, Pair(id, name, token, [])).groups == before + [Pair(id, name, token, [])];
  }

  /** The state both witnesses start from. */
  const GATHERED: State := State(PEOPLE, [Pair(10, "First", 100, []), Pair(20, "Second", 200, [])])
  const OPENING: seq<Event> := SETUP + Gather(10, "First", 100) + Gather(20, "Second", 200)

  lemma OpeningAllowed(env: Env)
    ensures AllAllowed(env, OPENING)
  {
    forall k | 0 <= k < |OPENING| ensures !OPENING[k].BindDecisionE? {
      if k < 4 { assert OPENING[k] == SETUP[k]; }
      else if k < 7 { assert OPENING[k] == Gather(10, "First", 100)[k - 4]; }
      else { assert OPENING[k] == Gather(20, "Second", 200)[k - 7]; }
    }
  }

  lemma FirstGathers(env: Env)
    ensures Run(env, State(PEOPLE, []), Gather(10, "First", 100)) == State(PEOPLE, [Pair(10, "First", 100, [])])
  {
    GatherRuns(env, [], 10, "First", 100);
    assert [] + [Pair(10, "First", 100, [])] == [Pair(10, "First", 100, [])];
  }

  lemma SecondGathers(env: Env)
    ensures Run(env, State(PEOPLE, [Pair(10, "First", 100, [])]), Gather(20, "Second", 200)) == GATHERED
  {
    var before := [Pair(10, "First", 100, [])];
    GatherRuns(env, before, 20, "Second", 200);
    assert before + [Pair(20, "Second", 200, [])] == GATHERED.groups;
  }

  lemma OpeningRuns(env: Env)
    ensures Run(env, EMPTY, OPENING) == GATHERED && AllAllowed(env, OPENING)
  {
    OpeningAllowed(env);
    OpeningSteps(env, SETUP, Gather(10, "First", 100), Gather(20, "Second", 200));
  }

  lemma OpeningSteps(env: Env, a: seq<Event>, b: seq<Event>, c: seq<Event>)
    requires a == SETUP && b == Gather(10, "First", 100) && c == Gather(20, "Second", 200)
    ensures Run(env, EMPTY, a + b + c) == GATHERED
  {
    SetupRuns(env);
    FirstGathers(env);
    SecondGathers(env);
    RunConcat(env, EMPTY, a, b);
    RunConcat(env, EMPTY, a + b, c);
  }

  // ----- binding and removing in that state

  /** The two groups, with what each of them binds. */
  function Binding2(first: seq<Binding>, second: seq<Binding>): State {
    State(PEOPLE, [Pair(10, "First", 100, first), Pair(20, "Second", 200, second)])
  }

  const NINE: Binding := Binding(9, 2, None, false)

  lemma Organizers(first: seq<Binding>, second: seq<Binding>)
    ensures OrganizedGroup(Binding2(first, second), 1, 10) == Ok(0)
    ensures OrganizedGroup(Binding2(first, second), 1, 20) == Ok(1)
  {
    AnnAndBen();
    var s := Binding2(first, second);
    LastIsFound(s, 1);
    assert s.groups[0].id == 10 && 1 in s.groups[0].members;
  }

  lemma BindsFirst(env: Env, second: seq<Binding>)
    ensures Step(env, Binding2([], second), BindDecisionE(1, 10, 9, 2)) == Binding2([NINE], second)
  {
    var s := Binding2([], second);
    Organizers([], second);
    assert [] + [NINE] == [NINE] && FindBinding([], 9).None?;
    assert Put(s, 0, Pair(10, "First", 100, [NINE])).groups == Binding2([NINE], second).groups;
  }

  lemma BindsSecond(env: Env, first: seq<Binding>)
    ensures Step(env, Binding2(first, []), BindDecisionE(1, 20, 9, 2)) == Binding2(first, [NINE])
  {
    var s := Binding2(first, []);
    Organizers(first, []);
    assert [] + [NINE] == [NINE] && FindBinding([], 9).None?;
    assert Put(s, 1, Pair(20, "Second", 200, [NINE])).groups == Binding2(first, [NINE]).groups;
  }

  /** Ben is taken out of the second group. */
  lemma RemovesBen(env: Env, first: seq<Binding>)
    requires env.memberId(1) != env.memberId(2)
    ensures var s := Binding2(first, [NINE]);
            && Remove(env, s, 1, 20, env.memberId(2), 2).Ok?
            && Remove(env, s, 1, 20, env.memberId(2), 2).value == Without(first)
  {
    var s := Binding2(first, [NINE]);
    Organizers(first, [NINE]);
    var g := s.groups[1];
    assert g.members[0] == 1 && g.members[1] == 2;
    assert IndexOf(g.members, (m: Id) => env.memberId(m) == env.memberId(2)) == Some(1);
    var keep := (m: Id) => m != 2;
    var ben: seq<Id> := [2];
    assert g.members[1..] == ben && ben[1..] == [];
    assert Filter(ben, keep) == [];
    assert Filter(g.members, keep) == [1];
    assert Put(s, 1, Without(first).groups[1]).groups == Without(first).groups;
  }

  /** The two groups after Ben has left the second one, which still lists the decision at its old version. */
  function Without(first: seq<Binding>): State {
    State(PEOPLE, [Pair(10, "First", 100, first), Pair(20, "Second", 200, [NINE]).(members := [1], version := 3)])
  }

  lemma BenPasses(env: Env, s: State)
    requires WellFormed(env, s) && s.accounts == PEOPLE && s.groups != []
             && s.groups[0] == Pair(10, "First", 100, [NINE])
    ensures Authorize(s, Participant(2), 9).Ok?
  {
    AnnAndBen();
    var g := s.groups[0];
    assert g.decisions[0].id == 9;
    assert FindBinding(g.decisions, 9) == Some(0);
    assert Binds(s.groups[0], 9);
    assert BindingGroup(s, 9) == Some(0);
    AuthorizeExactly(env, s, 2, 9);
  }

  /** A reachable state in which a member who is removed from a group that binds the decision keeps access to it,
      because an earlier group binds it too. */
  lemma SharedDecisionEscapesRemoval(env: Env) returns (events: seq<Event>, member: Id)
    requires Suitable(env)
    ensures AllAllowed(env, events)
    ensures var s := Run(env, EMPTY, events);
            && Remove(env, s, 1, 20, member, 2).Ok?
            && Binds(s.groups[OrganizedGroup(s, 1, 20).value], 9)
            && 2 in s.groups[OrganizedGroup(s, 1, 20).value].members && env.memberId(2) == member
            && Authorize(Remove(env, s, 1, 20, member, 2).value, Participant(2), 9).Ok?
  {
    member := env.memberId(2);
    var one, two := BindDecisionE(1, 10, 9, 2), BindDecisionE(1, 20, 9, 2);
    events := OPENING + [one] + [two];
    OpeningRuns(env);
    assert GATHERED == Binding2([], []);
    BindsFirst(env, []);
    BindsSecond(env, [NINE]);
    RunSnoc(env, EMPTY, OPENING, one);
    RunSnoc(env, EMPTY, OPENING + [one], two);
    var s := Binding2([NINE], [NINE]);
    assert Run(env, EMPTY, events) == s;
    RunKeeps(env, EMPTY, events);
    Organizers([NINE], [NINE]);
    RemovesBen(env, [NINE]);
    RemoveKeeps(env, s, 1, 20, member, 2);
    assert s.groups[1].decisions[0].id == 9;
    BenPasses(env, Without([NINE]));
  }

  /** The run in which only the second group binds the decision. */
  lemma SecondBinds(env: Env) returns (events: seq<Event>)
    requires Suitable(env)
    ensures AllAllowed(env, events) && Run(env, EMPTY, events) == Binding2([], [NINE])
    ensures WellFormed(env, Binding2([], [NINE])) && BindingGroup(Binding2([], [NINE]), 9) == Some(1)
  {
    var two := BindDecisionE(1, 20, 9, 2);
    events := OPENING + [two];
    OpeningRuns(env);
    assert GATHERED == Binding2([], []);
    BindsSecond(env, []);
    RunSnoc(env, EMPTY, OPENING, two);
    RunKeeps(env, EMPTY, events);
    var s := Binding2([], [NINE]);
    assert s.groups[1].decisions[0].id == 9 && s.groups[0].decisions == [];
    assert Binds(s.groups[1], 9) && !Binds(s.groups[0], 9);
  }

  /** After the removal the decision is shut, and the later binding opens it for Ben. */
  lemma OpenedAgain(env: Env)
    requires Suitable(env) && WellFormed(env, Without([])) && BindingGroup(Without([]), 9) == Some(1)
    ensures var later := BindDecisionE(1, 10, 9, 2);
            && Reopens(env, Without([]), later, 9)
            && Authorize(Step(env, Without([]), later), Participant(2), 9).Ok?
  {
    BindsAgain(env);
    assert EarlierGroup(Without([]), 1, 10) by { assert Without([]).groups[0].id == 10; }
    StepKeeps(env, Without([]), BindDecisionE(1, 10, 9, 2));
    BenPasses(env, Without([NINE]));
  }

  /** A reachable state in which a removal shuts the decision, and one later binding by hand, in an earlier group
      that the removed person belongs to, opens it again for that person. */
  lemma LaterBindingReopens(env: Env) returns (events: seq<Event>, member: Id, later: Event)
    requires Suitable(env)
    ensures AllAllowed(env, events) && Allowed(env, later) && later.BindDecisionE?
    ensures var s := Run(env, EMPTY, events);
            && Remove(env, s, 1, 20, member, 2).Ok? && env.memberId(2) == member
            && BindingGroup(s, 9) == Some(OrganizedGroup(s, 1, 20).value)
            && Shut(Remove(env, s, 1, 20, member, 2).value, 9)
            && Reopens(env, Remove(env, s, 1, 20, member, 2).value, later, 9)
            && Authorize(Step(env, Remove(env, s, 1, 20, member, 2).value, later), Participant(2), 9).Ok?
  {
    member, later := env.memberId(2), BindDecisionE(1, 10, 9, 2);
    events := SecondBinds(env);
    RemovesBen(env, []);
    Organizers([], [NINE]);
    RemovalAnswers(env, Binding2([], [NINE]), 1, 20, member, 2, 9);
    RemoveKeeps(env, Binding2([], [NINE]), 1, 20, member, 2);
    OpenedAgain(env);
  }

  lemma BindsAgain(env: Env)
    ensures Apply(env, Without([]), BindDecisionE(1, 10, 9, 2)) == Ok(Without([NINE]))
  {
    AnnAndBen();
    var s := Without([]);
    assert s.groups[0].id == 10 && 1 in s.groups[0].members && !s.groups[0].deleted;
    assert OrganizedGroup(s, 1, 10) == Ok(0);
    assert [] + [NINE] == [NINE] && FindBinding([], 9).None?;
    assert Put(s, 0, Pair(10, "First", 100, [NINE])).groups == Without([NINE]).groups;
  }
}
