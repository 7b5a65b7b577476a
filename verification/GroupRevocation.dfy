/** When a decision is shut to everybody, what keeps it shut, and exactly what opens it again. */
module GroupRevocation {
  import opened Prelude
  import opened GroupState
  import opened GroupTransitions
  import opened GroupInvariant
  import opened GroupHistory

  // ----- who passes

  /** A display passes exactly in its own room, in the name of nobody refused, while the binding is current. */
  lemma DisplayExactly(s: State, subject: Id, room: Id, decision: Id)
    ensures Authorize(s, Display(subject, room), decision).Ok? <==>
              && room == decision
              && (FindAccount(s.accounts, subject).Some? ==> IsApproved(s.accounts, subject))
              && (BindingGroup(s, decision).Some? ==>
                    var g := s.groups[BindingGroup(s, decision).value];
                    !g.deleted && Current(g, decision))
  {
  }

  /** The group that answers for the decision is deleted, or its binding there is stale or deleted. */
  predicate Shut(s: State, decision: Id) {
    var at := BindingGroup(s, decision);
    at.Some? && (s.groups[at.value].deleted || !Current(s.groups[at.value], decision))
  }

  /** Some subject has no account. */
  lemma {:induction false} SomebodyUnknown(accounts: seq<Account>, from: nat) returns (who: Id)
    ensures who >= from && forall k :: 0 <= k < |accounts| ==> accounts[k].subject != who
    decreases |accounts|
  {
    if accounts == [] {
      who := from;
    } else {
      var n := |accounts| - 1;
      var next := if accounts[n].subject >= from then accounts[n].subject + 1 else from;
      who := SomebodyUnknown(accounts[..n], next);
    }
  }

  /** A decision is shut if and only if nobody at all is authorised for it. */
  lemma ShutExactly(env: Env, s: State, decision: Id)
    requires WellFormed(env, s)
    ensures Shut(s, decision) <==> forall p: Principal :: Authorize(s, p, decision).Err?
  {
    if Shut(s, decision) {
      forall p: Principal ensures Authorize(s, p, decision).Err? {
        match p
        case Participant(who) => AuthorizeExactly(env, s, who, decision);
        case Display(subject, room) => DisplayExactly(s, subject, room, decision);
      }
    } else {
      var who := SomebodyUnknown(s.accounts, 0);
      DisplayExactly(s, who, decision, decision);
      assert Authorize(s, Display(who, decision), decision).Ok?;
    }
  }

  // ----- one step

  /** The only two ways out: a rebind by the group that answers, or a first binding by hand in an earlier group. */
  ghost predicate Reopens(env: Env, s: State, e: Event, decision: Id)
    requires BindingGroup(s, decision).Some?
  {
    var at := BindingGroup(s, decision).value;
    && Apply(env, s, e).Ok?
    && ((e.RebindE? && e.bound == decision && e.id == s.groups[at].id)
        || (e.BindDecisionE? && e.bound == decision && EarlierGroup(s, at, e.id)))
  }

  ghost predicate EarlierGroup(s: State, at: nat, id: Id) {
    exists j :: 0 <= j < at && j < |s.groups| && s.groups[j].id == id
  }

  lemma StillBound(env: Env, e: Event, g: Group, g': Group, decision: Id)
    requires Evolves(env, e, g, g') && Binds(g, decision)
    ensures FindBinding(g'.decisions, decision) == FindBinding(g.decisions, decision)
  {
    var k := FindBinding(g.decisions, decision).value;
    FirstBinding(g.decisions, decision);
    assert g'.decisions[k].id == decision;
    assert forall j :: 0 <= j < k ==> g'.decisions[j].id == g.decisions[j].id;
    FirstBinding(g'.decisions, decision);
  }

  /** A group that does not bind a decision bound elsewhere begins to do so only by hand. */
  lemma StillUnbound(env: Env, s: State, e: Event, next: State, i: nat, j: nat, decision: Id)
    requires Injective(env) && WellFormed(env, s) && StepEvolves(env, s, e, next)
    requires i < |s.groups| && j < |s.groups| && i != j
    requires Binds(s.groups[i], decision) && !Binds(s.groups[j], decision)
    requires !(e.BindDecisionE? && e.bound == decision && e.id == s.groups[j].id)
    ensures !Binds(next.groups[j], decision)
  {
    var g, g' := s.groups[j], next.groups[j];
    assert Evolves(env, e, g, g');
    GroupsDiffer(env, s, i, j);
    NoNewBinding(env, s.groups[i], e, g, g', decision);
    assert forall k :: 0 <= k < |g.decisions| ==> g'.decisions[k].id == g.decisions[k].id;
  }

  lemma NoNewBinding(env: Env, owner: Group, e: Event, g: Group, g': Group, decision: Id)
    requires Injective(env) && DerivedOk(env, owner) && Binds(owner, decision) && owner.id != g.id
    requires Evolves(env, e, g, g') && !(e.BindDecisionE? && e.bound == decision && e.id == g.id)
    ensures forall k :: |g.decisions| <= k < |g'.decisions| ==> g'.decisions[k].id != decision
  {
    forall k | |g.decisions| <= k < |g'.decisions| ensures g'.decisions[k].id != decision {
      assert NewBinding(env, g, e, g'.decisions[k]);
      if e.ReserveE? {
        assert Binds(owner, env.decisionId(g.id, e.draftId)) ==> g.id == owner.id;
      }
    }
  }

  lemma EarlierStayUnbound(env: Env, s: State, e: Event, next: State, i: nat, decision: Id)
    requires Injective(env) && WellFormed(env, s) && StepEvolves(env, s, e, next)
    requires BindingGroup(s, decision) == Some(i)
    requires !(e.BindDecisionE? && e.bound == decision && EarlierGroup(s, i, e.id))
    ensures forall j :: 0 <= j < i ==> !Binds(next.groups[j], decision)
  {
    forall j | 0 <= j < i ensures !Binds(next.groups[j], decision) {
      assert j < |s.groups| && s.groups[j].id == s.groups[j].id;
      StillUnbound(env, s, e, next, i, j, decision);
    }
  }

  /** The same group answers after a step that binds nothing by hand in an earlier one. */
  lemma SameGroupAnswers(env: Env, s: State, e: Event, next: State, decision: Id)
    requires Injective(env) && WellFormed(env, s) && StepEvolves(env, s, e, next)
    requires BindingGroup(s, decision).Some?
    requires !(e.BindDecisionE? && e.bound == decision && EarlierGroup(s, BindingGroup(s, decision).value, e.id))
    ensures BindingGroup(next, decision) == BindingGroup(s, decision)
  {
    var i := BindingGroup(s, decision).value;
    EarlierStayUnbound(env, s, e, next, i, decision);
    assert Binds(next.groups[i], decision) by {
      assert Evolves(env, e, s.groups[i], next.groups[i]);
      StillBound(env, e, s.groups[i], next.groups[i], decision);
    }
    FirstToBind(next, i, decision);
  }

  lemma FirstToBind(s: State, i: nat, decision: Id)
    requires i < |s.groups| && Binds(s.groups[i], decision) && forall j :: 0 <= j < i ==> !Binds(s.groups[j], decision)
    ensures BindingGroup(s, decision) == Some(i)
  {
  }

  /** A binding that is not current stays so, unless its own group rebinds it. */
  lemma StaleFollows(env: Env, e: Event, g: Group, g': Group, decision: Id)
    requires Evolves(env, e, g, g') && Binds(g, decision) && !Current(g, decision) && !Rebinds(e, g, decision)
    requires forall k :: 0 <= k < |g.decisions| ==> g.decisions[k].version <= g.version
    ensures !Current(g', decision)
  {
    StillBound(env, e, g, g', decision);
    var k := FindBinding(g.decisions, decision).value;
    assert BindingFollows(g, g', g.decisions[k], g'.decisions[k]);
  }

  lemma StaysShut(env: Env, s: State, e: Event, decision: Id)
    requires Injective(env) && WellFormed(env, s) && Shut(s, decision) && !Reopens(env, s, e, decision)
    ensures Shut(Step(env, s, e), decision)
  {
    if Apply(env, s, e).Ok? {
      var i := BindingGroup(s, decision).value;
      var next := Step(env, s, e);
      EveryStepEvolves(env, s, e);
      SameGroupAnswers(env, s, e, next, decision);
      assert Evolves(env, e, s.groups[i], next.groups[i]);
      assert GroupOk(env, s.accounts, s.groups[i]);
      if !s.groups[i].deleted { StaleFollows(env, e, s.groups[i], next.groups[i], decision); }
    }
  }

  /** The organizer's group is the only one with its identifier. */
  lemma OrganizedIs(env: Env, s: State, who: Id, id: Id, i: nat)
    requires WellFormed(env, s) && OrganizedGroup(s, who, id).Ok? && i < |s.groups| && s.groups[i].id == id
    ensures OrganizedGroup(s, who, id) == Ok(i)
  {
    var j := OrganizedGroup(s, who, id).value;
    if i != j { GroupsDiffer(env, s, i, j); }
  }

  lemma RebindOpens(env: Env, s: State, e: Event, decision: Id)
    requires WellFormed(env, s) && BindingGroup(s, decision).Some? && e.RebindE?
    requires Reopens(env, s, e, decision)
    ensures !Shut(Step(env, s, e), decision)
  {
    var i := BindingGroup(s, decision).value;
    OrganizedIs(env, s, e.who, e.id, i);
    var next := Step(env, s, e);
    SameSelection(s, next, i, decision);
    BindsFollow(s.groups[i], next.groups[i]);
  }

  /** A fresh binding at the group's version is current. */
  lemma AppendedIsCurrent(g: Group, decision: Id)
    requires !Binds(g, decision)
    ensures var g' := g.(decisions := g.decisions + [Binding(decision, g.version, None, false)]);
            Binds(g', decision) && Current(g', decision)
  {
    var g' := g.(decisions := g.decisions + [Binding(decision, g.version, None, false)]);
    var at := |g.decisions|;
    assert g'.decisions[at] == Binding(decision, g.version, None, false);
    assert forall k :: 0 <= k < at ==> g'.decisions[k] == g.decisions[k];
    forall k | 0 <= k < at ensures g'.decisions[k].id != decision { assert g.decisions[k].id != decision; }
    assert FindBinding(g'.decisions, decision) == Some(at);
  }

  /** The first of the groups that come to bind the decision answers for it. */
  lemma FirstAnswers(s: State, j: nat, g: Group, decision: Id)
    requires j < |s.groups| && Binds(g, decision) && forall k :: 0 <= k < j ==> !Binds(s.groups[k], decision)
    ensures BindingGroup(Put(s, j, g), decision) == Some(j)
  {
    var next := Put(s, j, g);
    assert next.groups[j] == g;
    assert forall k :: 0 <= k < j ==> next.groups[k] == s.groups[k];
  }

  lemma BoundByHand(env: Env, s: State, e: Event, i: nat)
    requires e.BindDecisionE? && Apply(env, s, e).Ok? && OrganizedGroup(s, e.who, e.id) == Ok(i)
    requires !Binds(s.groups[i], e.bound)
    ensures var g := s.groups[i];
            Step(env, s, e) == Put(s, i, g.(decisions := g.decisions + [Binding(e.bound, g.version, None, false)]))
  {
  }

  lemma BindingOpens(env: Env, s: State, e: Event, decision: Id)
    requires WellFormed(env, s) && BindingGroup(s, decision).Some? && e.BindDecisionE?
    requires Reopens(env, s, e, decision)
    ensures !Shut(Step(env, s, e), decision)
  {
    var j :| 0 <= j < BindingGroup(s, decision).value && j < |s.groups| && s.groups[j].id == e.id;
    OrganizedIs(env, s, e.who, e.id, j);
    var g := s.groups[j];
    BoundByHand(env, s, e, j);
    AppendedIsCurrent(g, decision);
    FirstAnswers(s, j, g.(decisions := g.decisions + [Binding(decision, g.version, None, false)]), decision);
  }

  /** Exactly: a shut decision is open after a transaction if and only if that was a successful rebind by the group
      that answers for it, or a successful first binding by hand in an earlier group. */
  lemma StepShutExactly(env: Env, s: State, e: Event, decision: Id)
    requires Injective(env) && WellFormed(env, s) && Shut(s, decision)
    ensures Shut(Step(env, s, e), decision) <==> !Reopens(env, s, e, decision)
  {
    if Reopens(env, s, e, decision) {
      if e.RebindE? { RebindOpens(env, s, e, decision); } else { BindingOpens(env, s, e, decision); }
    } else {
      StaysShut(env, s, e, decision);
    }
  }

  // ----- whole runs

  /** No transaction of the run reopens the decision at its turn. */
  ghost predicate NeverReopened(env: Env, s: State, events: seq<Event>, decision: Id)
    decreases |events|
  {
    events == []
    || (BindingGroup(s, decision).Some? && !Reopens(env, s, events[0], decision)
        && NeverReopened(env, Step(env, s, events[0]), events[1..], decision))
  }

  /** Shut before the run, and after each of its transactions. */
  ghost predicate ShutThroughout(env: Env, s: State, events: seq<Event>, decision: Id)
    decreases |events|
  {
    Shut(s, decision) && (events == [] || ShutThroughout(env, Step(env, s, events[0]), events[1..], decision))
  }

  /** Exactly: a shut decision stays shut throughout an allowed run if and only if nothing in it reopens it. */
  lemma {:induction false} RunShutExactly(env: Env, s: State, events: seq<Event>, decision: Id)
    requires Injective(env) && AllAllowed(env, events) && WellFormed(env, s) && Shut(s, decision)
    ensures ShutThroughout(env, s, events, decision) <==> NeverReopened(env, s, events, decision)
    decreases |events|
  {
    if events != [] {
      assert Allowed(env, events[0]);
      StepKeeps(env, s, events[0]);
      StepShutExactly(env, s, events[0], decision);
      if Shut(Step(env, s, events[0]), decision) {
        RunShutExactly(env, Step(env, s, events[0]), events[1..], decision);
      }
    }
  }

  lemma {:induction false} ShutAtTheEnd(env: Env, s: State, events: seq<Event>, decision: Id)
    requires ShutThroughout(env, s, events, decision)
    ensures Shut(Run(env, s, events), decision)
    decreases |events|
  {
    if events != [] { ShutAtTheEnd(env, Step(env, s, events[0]), events[1..], decision); }
  }

  // ----- removal

  /** The group that answers for the decision is the removing group, or is an earlier one that had it shut already. */
  predicate RemovalReaches(s: State, i: nat, decision: Id)
    requires i < |s.groups| && Binds(s.groups[i], decision)
  {
    BindingGroup(s, decision) == Some(i) || Shut(s, decision)
  }

  /** A group with the same bindings at a later version has no current one. */
  lemma VersionStales(g: Group, g': Group, decision: Id)
    requires g'.decisions == g.decisions && g'.version > g.version
    requires forall k :: 0 <= k < |g.decisions| ==> g.decisions[k].version <= g.version
    ensures !Current(g', decision)
  {
  }

  lemma RemovedGroup(env: Env, s: State, who: Id, id: Id, member: Id, version: nat)
    requires Remove(env, s, who, id, member, version).Ok?
    ensures var i := OrganizedGroup(s, who, id).value;
            var next := Remove(env, s, who, id, member, version).value;
            && next.accounts == s.accounts && |next.groups| == |s.groups|
            && (forall j :: 0 <= j < |s.groups| && j != i ==> next.groups[j] == s.groups[j])
            && next.groups[i].decisions == s.groups[i].decisions && next.groups[i].version == s.groups[i].version + 1
            && next.groups[i].deleted == s.groups[i].deleted
  {
  }

  /** The same groups bind the decision, so the same one answers. */
  lemma SameAnswer(s: State, next: State, decision: Id)
    requires |next.groups| == |s.groups| && BindingGroup(s, decision).Some?
    requires forall j :: 0 <= j < |s.groups| ==> next.groups[j].decisions == s.groups[j].decisions
    ensures BindingGroup(next, decision) == BindingGroup(s, decision)
  {
    assert forall j :: 0 <= j < |s.groups| ==> Binds(next.groups[j], decision) == Binds(s.groups[j], decision);
    assert Binds(next.groups[BindingGroup(s, decision).value], decision);
  }

  /** What a removal does to the group that answers: its bindings go stale, or it is not touched. */
  lemma RemovalAnswers(env: Env, s: State, who: Id, id: Id, member: Id, version: nat, decision: Id)
    requires WellFormed(env, s) && Remove(env, s, who, id, member, version).Ok?
    requires Binds(s.groups[OrganizedGroup(s, who, id).value], decision)
    ensures var i := OrganizedGroup(s, who, id).value;
            var next := Remove(env, s, who, id, member, version).value;
            && BindingGroup(next, decision) == BindingGroup(s, decision)
            && (Shut(next, decision) <==> RemovalReaches(s, i, decision))
  {
    var i := OrganizedGroup(s, who, id).value;
    var next := Remove(env, s, who, id, member, version).value;
    RemovedGroup(env, s, who, id, member, version);
    SameAnswer(s, next, decision);
    assert BindingsOk(s.groups[i]) by { assert GroupOk(env, s.accounts, s.groups[i]); }
    VersionStales(s.groups[i], next.groups[i], decision);
  }

  /** Along every allowed run that does not reopen the decision, nobody is authorised for it. */
  ghost predicate ShutForGood(env: Env, s: State, decision: Id) {
    forall events, p: Principal ::
      AllAllowed(env, events) && NeverReopened(env, s, events, decision) ==>
        Authorize(Run(env, s, events), p, decision).Err?
  }

  lemma ShutAlong(env: Env, s: State, events: seq<Event>, decision: Id, p: Principal)
    requires Injective(env) && WellFormed(env, s) && Shut(s, decision)
    requires AllAllowed(env, events) && NeverReopened(env, s, events, decision)
    ensures Authorize(Run(env, s, events), p, decision).Err?
  {
    RunShutExactly(env, s, events, decision);
    ShutAtTheEnd(env, s, events, decision);
    RunKeeps(env, s, events);
    ShutExactly(env, Run(env, s, events), decision);
  }

  lemma ShutFromTheStart(env: Env, s: State, decision: Id)
    requires WellFormed(env, s) && ShutForGood(env, s, decision)
    ensures Shut(s, decision)
  {
    forall p: Principal ensures Authorize(s, p, decision).Err? {
      assert AllAllowed(env, []) && NeverReopened(env, s, [], decision);
      assert Run(env, s, []) == s;
      assert Authorize(Run(env, s, []), p, decision).Err?;
    }
    ShutExactly(env, s, decision);
  }

  lemma ShutForGoodExactly(env: Env, s: State, decision: Id)
    requires Injective(env) && WellFormed(env, s)
    ensures ShutForGood(env, s, decision) <==> Shut(s, decision)
  {
    if ShutForGood(env, s, decision) { ShutFromTheStart(env, s, decision); }
    if Shut(s, decision) {
      forall events, p: Principal | AllAllowed(env, events) && NeverReopened(env, s, events, decision)
        ensures Authorize(Run(env, s, events), p, decision).Err?
      {
        ShutAlong(env, s, events, decision, p);
      }
    }
  }

  /** Exactly: after a removal nobody is authorised for a decision the group binds, along any allowed run that does
      not reopen it, if and only if the removing group answers for the decision, or whoever answers had it shut. */
  lemma RemovalRevokes(env: Env, s: State, who: Id, id: Id, member: Id, version: nat, decision: Id)
    requires Injective(env) && WellFormed(env, s) && Remove(env, s, who, id, member, version).Ok?
    requires Binds(s.groups[OrganizedGroup(s, who, id).value], decision)
    ensures ShutForGood(env, Remove(env, s, who, id, member, version).value, decision)
            <==> RemovalReaches(s, OrganizedGroup(s, who, id).value, decision)
  {
    RemoveKeeps(env, s, who, id, member, version);
    RemovalAnswers(env, s, who, id, member, version, decision);
    ShutForGoodExactly(env, Remove(env, s, who, id, member, version).value, decision);
  }

  /** A removal changes no answer for a decision that an earlier group binds as well. */
  lemma RemovalElsewhere(env: Env, s: State, who: Id, id: Id, member: Id, version: nat, decision: Id, p: Principal)
    requires WellFormed(env, s) && Remove(env, s, who, id, member, version).Ok?
    requires BindingGroup(s, decision).Some? && BindingGroup(s, decision).value < OrganizedGroup(s, who, id).value
    ensures Authorize(Remove(env, s, who, id, member, version).value, p, decision) == Authorize(s, p, decision)
  {
    var next := Remove(env, s, who, id, member, version).value;
    RemoveKeeps(env, s, who, id, member, version);
    EarlierGroupDecides(env, s, next, OrganizedGroup(s, who, id).value, decision, p);
  }

  lemma EarlierGroupDecides(env: Env, s: State, next: State, i: nat, decision: Id, p: Principal)
    requires WellFormed(env, s) && WellFormed(env, next) && next.accounts == s.accounts && |next.groups| == |s.groups|
    requires i < |s.groups| && forall j :: 0 <= j < i ==> next.groups[j] == s.groups[j]
    requires BindingGroup(s, decision).Some? && BindingGroup(s, decision).value < i
    ensures Authorize(next, p, decision) == Authorize(s, p, decision)
  {
    var at := BindingGroup(s, decision).value;
    assert BindingGroup(next, decision) == Some(at) by { assert Binds(next.groups[at], decision); }
    if p.Participant? && IsApproved(s.accounts, p.subject) && !s.groups[at].deleted {
      GroupOfSelected(env, s, p.subject, at);
      GroupOfSelected(env, next, p.subject, at);
    }
  }

  // ----- decisions derived from drafts

  /** Only its own group binds a derived decision, so that group answers for it. */
  lemma DerivedAnswers(env: Env, s: State, i: nat, draftId: Id)
    requires Injective(env) && WellFormed(env, s) && i < |s.groups|
    requires Binds(s.groups[i], env.decisionId(s.groups[i].id, draftId))
    ensures BindingGroup(s, env.decisionId(s.groups[i].id, draftId)) == Some(i)
  {
    var decision := env.decisionId(s.groups[i].id, draftId);
    forall j | 0 <= j < i ensures !Binds(s.groups[j], decision) {
      GroupsDiffer(env, s, i, j);
      assert DerivedOk(env, s.groups[j]);
    }
  }

  /** Somebody rebinds this decision of this group. */
  predicate RebindsIt(e: Event, id: Id, decision: Id) {
    e.RebindE? && e.id == id && e.bound == decision
  }

  lemma {:induction false} OnlyRebindsReopen(env: Env, s: State, events: seq<Event>, i: nat, draftId: Id)
    requires Injective(env) && WellFormed(env, s) && AllAllowed(env, events) && i < |s.groups|
    requires Binds(s.groups[i], env.decisionId(s.groups[i].id, draftId))
    requires forall k :: 0 <= k < |events| ==>
               !RebindsIt(events[k], s.groups[i].id, env.decisionId(s.groups[i].id, draftId))
    ensures NeverReopened(env, s, events, env.decisionId(s.groups[i].id, draftId))
    decreases |events|
  {
    if events != [] {
      var decision := env.decisionId(s.groups[i].id, draftId);
      var e, next := events[0], Step(env, s, events[0]);
      DerivedAnswers(env, s, i, draftId);
      assert Allowed(env, e) && !RebindsIt(e, s.groups[i].id, decision);
      assert Derived(env, decision);
      assert !Reopens(env, s, e, decision);
      StepKeeps(env, s, e);
      EveryStepEvolves(env, s, e);
      assert Evolves(env, e, s.groups[i], next.groups[i]);
      StillBound(env, e, s.groups[i], next.groups[i], decision);
      assert forall k :: 0 <= k < |events[1..]| ==> events[1..][k] == events[k + 1];
      OnlyRebindsReopen(env, next, events[1..], i, draftId);
    }
  }

  /** A decision that was created from a draft is shut to everybody by a removal, along every allowed run, until the
      group rebinds it; nothing else needs to be supposed. */
  lemma RemovalRevokesDerived(env: Env, s: State, who: Id, id: Id, member: Id, version: nat, draftId: Id,
                              events: seq<Event>, p: Principal)
    requires Injective(env) && WellFormed(env, s) && AllAllowed(env, events)
    requires Remove(env, s, who, id, member, version).Ok?
    requires Binds(s.groups[OrganizedGroup(s, who, id).value], env.decisionId(id, draftId))
    requires forall k :: 0 <= k < |events| ==> !RebindsIt(events[k], id, env.decisionId(id, draftId))
    ensures Authorize(Run(env, Remove(env, s, who, id, member, version).value, events), p,
                      env.decisionId(id, draftId)).Err?
  {
    var i := OrganizedGroup(s, who, id).value;
    var next := Remove(env, s, who, id, member, version).value;
    RemoveKeeps(env, s, who, id, member, version);
    DerivedAnswers(env, s, i, draftId);
    RemovalAnswers(env, s, who, id, member, version, env.decisionId(id, draftId));
    assert Binds(next.groups[i], env.decisionId(id, draftId));
    OnlyRebindsReopen(env, next, events, i, draftId);
    ShutAlong(env, next, events, env.decisionId(id, draftId), p);
  }
}
