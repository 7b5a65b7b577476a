/** What removing a draft, a decision or a whole group means for everybody, at once and along every later run. */
module GroupRemovals {
  import opened Prelude
  import opened GroupState
  import opened GroupTransitions
  import opened GroupInvariant
  import opened GroupHistory
  import opened GroupRevocation
  import opened GroupEffects

  // ----- who is touched

  /** The group of a state that has changed, in everything an authorization looks at, for this decision at most. */
  ghost predicate OnlyBindings(g: Group, g': Group, decision: Id) {
    && g'.id == g.id && g'.deleted == g.deleted && g'.members == g.members && g'.version == g.version
    && |g'.decisions| == |g.decisions|
    && forall k :: 0 <= k < |g.decisions| ==>
         g'.decisions[k].id == g.decisions[k].id
         && (g.decisions[k].id == decision ==> SameBinding(g.decisions[k], g'.decisions[k]))
  }

  lemma SameBinders(s: State, i: nat, g: Group, decision: Id)
    requires i < |s.groups| && |g.decisions| == |s.groups[i].decisions|
    requires forall k :: 0 <= k < |g.decisions| ==> g.decisions[k].id == s.groups[i].decisions[k].id
    ensures FindBinding(g.decisions, decision) == FindBinding(s.groups[i].decisions, decision)
    ensures BindingGroup(Put(s, i, g), decision) == BindingGroup(s, decision)
  {
    BindsFollow(s.groups[i], g);
    var next := Put(s, i, g);
    assert forall j :: 0 <= j < |s.groups| ==> Binds(next.groups[j], decision) == Binds(s.groups[j], decision);
  }

  lemma UntouchedAnswer(s: State, i: nat, g: Group, p: Principal, decision: Id)
    requires i < |s.groups| && OnlyBindings(s.groups[i], g, decision)
    ensures Authorize(Put(s, i, g), p, decision) == Authorize(s, p, decision)
  {
    SameBinders(s, i, g, decision);
    var at := BindingGroup(s, decision);
    if p.Participant? && at.Some? { SameGroups(s, i, g, p.subject, s.groups[at.value].id); }
  }

  /** Another group answers for the decision, so what happens to this one does not matter to it. */
  lemma ElsewhereAnswered(env: Env, s: State, i: nat, g: Group, p: Principal, decision: Id)
    requires i < |s.groups| && g.id == s.groups[i].id && WellFormed(env, s) && WellFormed(env, Put(s, i, g))
    requires |g.decisions| == |s.groups[i].decisions|
    requires forall k :: 0 <= k < |g.decisions| ==> g.decisions[k].id == s.groups[i].decisions[k].id
    requires BindingGroup(s, decision) != Some(i)
    ensures Authorize(Put(s, i, g), p, decision) == Authorize(s, p, decision)
  {
    SameBinders(s, i, g, decision);
    var at := BindingGroup(s, decision);
    if p.Participant? && IsApproved(s.accounts, p.subject) && at.Some? && !s.groups[at.value].deleted {
      GroupOfSelected(env, s, p.subject, at.value);
      GroupOfSelected(env, Put(s, i, g), p.subject, at.value);
    }
  }

  // ----- gone for good

  /** The binding of the decision in this group is deleted, or the whole group is. */
  predicate Gone(s: State, i: nat, decision: Id) {
    && i < |s.groups| && Binds(s.groups[i], decision)
    && (s.groups[i].deleted
        || s.groups[i].decisions[FindBinding(s.groups[i].decisions, decision).value].deleted)
  }

  lemma GoneStays(env: Env, s: State, e: Event, i: nat, decision: Id)
    requires Gone(s, i, decision)
    ensures Gone(Step(env, s, e), i, decision)
  {
    EveryStepEvolves(env, s, e);
    var g, g' := s.groups[i], Step(env, s, e).groups[i];
    assert Evolves(env, e, g, g');
    StillBound(env, e, g, g', decision);
    var k := FindBinding(g.decisions, decision).value;
    assert g.decisions[k].deleted ==> g'.decisions[k].deleted;
  }

  /** Nobody binds the decision by hand in a run. */
  predicate NotByHand(events: seq<Event>, decision: Id) {
    forall k :: 0 <= k < |events| ==> !(events[k].BindDecisionE? && events[k].bound == decision)
  }

  /** A decision derived from a draft is never bound by hand in an allowed run. */
  lemma DerivedNotByHand(env: Env, events: seq<Event>, decision: Id)
    requires AllAllowed(env, events) && Derived(env, decision)
    ensures NotByHand(events, decision)
  {
    forall k | 0 <= k < |events| ensures !(events[k].BindDecisionE? && events[k].bound == decision) {
      assert Allowed(env, events[k]);
    }
  }

  lemma GoneAnswers(env: Env, s: State, i: nat, p: Principal, decision: Id)
    requires WellFormed(env, s) && Gone(s, i, decision) && BindingGroup(s, decision) == Some(i)
    ensures Authorize(s, p, decision).Err?
    ensures p.Participant? && IsApproved(s.accounts, p.subject) ==> Authorize(s, p, decision) == Err(NotFound)
  {
  }

  /** What is gone stays gone: however the run goes on, nobody is authorised for the decision any more, and every
      approved participant is told that it is not found. */
  lemma {:induction false} GoneForGood(env: Env, s: State, events: seq<Event>, i: nat, p: Principal, decision: Id)
    requires Injective(env) && WellFormed(env, s) && AllAllowed(env, events) && NotByHand(events, decision)
    requires Gone(s, i, decision) && BindingGroup(s, decision) == Some(i)
    ensures var last := Run(env, s, events);
            && Authorize(last, p, decision).Err?
            && (p.Participant? && IsApproved(last.accounts, p.subject) ==>
                  Authorize(last, p, decision) == Err(NotFound))
    decreases |events|
  {
    if events == [] {
      GoneAnswers(env, s, i, p, decision);
    } else {
      var e, next := events[0], Step(env, s, events[0]);
      assert Allowed(env, e) && !(e.BindDecisionE? && e.bound == decision);
      StepKeeps(env, s, e);
      EveryStepEvolves(env, s, e);
      SameGroupAnswers(env, s, e, next, decision);
      GoneStays(env, s, e, i, decision);
      assert forall k :: 0 <= k < |events[1..]| ==> events[1..][k] == events[k + 1];
      GoneForGood(env, next, events[1..], i, p, decision);
    }
  }

  // ----- removing a decision

  ghost predicate WithoutBinding(g: Group, g': Group, item: Id) {
    && g'.id == g.id && g'.deleted == g.deleted && g'.members == g.members && g'.version == g.version
    && g'.drafts == Retired(g.drafts, (d: Draft) => d.created == Some(item))
    && Binds(g, item)
    && var k := FindBinding(g.decisions, item).value;
       g'.decisions == g.decisions[k := g.decisions[k].(deleted := true)]
  }

  lemma RemovedBinding(s: State, who: Id, id: Id, version: nat, item: Id)
    requires RemoveItem(s, who, id, version, DecisionItem, item).Ok?
    ensures var i := OrganizedGroup(s, who, id).value;
            var next := RemoveItem(s, who, id, version, DecisionItem, item).value;
            && |next.groups| == |s.groups| && next == Put(s, i, next.groups[i])
            && WithoutBinding(s.groups[i], next.groups[i], item)
  {
  }

  lemma WithoutBindingGives(env: Env, s: State, i: nat, g: Group, item: Id)
    requires i < |s.groups| && WellFormed(env, s) && WellFormed(env, Put(s, i, g))
    requires WithoutBinding(s.groups[i], g, item)
    ensures Gone(Put(s, i, g), i, item) && OnlyShuts(s, Put(s, i, g), i, item)
    ensures forall x :: DraftIn(g, x) == WithoutDecision(DraftIn(s.groups[i], x), item)
  {
    IsGone(s, i, g, item);
    DeletedBindingShuts(env, s, i, g, item);
    forall x ensures DraftIn(g, x) == WithoutDecision(DraftIn(s.groups[i], x), item) {
      SameDrafts(s.groups[i].drafts, g.drafts, x);
    }
  }

  lemma IsGone(s: State, i: nat, g: Group, item: Id)
    requires i < |s.groups| && WithoutBinding(s.groups[i], g, item)
    ensures Gone(Put(s, i, g), i, item) && forall d :: d != item ==> OnlyBindings(s.groups[i], g, d)
  {
    SameBinders(s, i, g, item);
  }

  /** The draft as it was, or deleted if the decision was created from it. */
  function WithoutDecision(d: Option<Draft>, decision: Id): Option<Draft> {
    if d.Some? && d.value.created == Some(decision) then Some(d.value.(deleted := true)) else d
  }

  /** If this group answered for the decision, nobody is authorised for it now; every other answer is as it was. */
  ghost predicate OnlyShuts(s: State, next: State, i: nat, decision: Id) {
    && (forall p: Principal :: BindingGroup(s, decision) == Some(i) ==> Authorize(next, p, decision).Err?)
    && (forall p: Principal, d ::
          d != decision || BindingGroup(s, decision) != Some(i) ==> Authorize(next, p, d) == Authorize(s, p, d))
  }

  lemma DeletedBindingShuts(env: Env, s: State, i: nat, g: Group, decision: Id)
    requires i < |s.groups| && WellFormed(env, s) && WellFormed(env, Put(s, i, g)) && Gone(Put(s, i, g), i, decision)
    requires g.id == s.groups[i].id && forall d :: d != decision ==> OnlyBindings(s.groups[i], g, d)
    ensures OnlyShuts(s, Put(s, i, g), i, decision)
  {
    var next := Put(s, i, g);
    assert OnlyBindings(s.groups[i], g, decision + 1);
    SameBinders(s, i, g, decision);
    forall p: Principal | BindingGroup(s, decision) == Some(i) ensures Authorize(next, p, decision).Err? {
      GoneAnswers(env, next, i, p, decision);
    }
    forall p: Principal, d | d != decision || BindingGroup(s, decision) != Some(i)
      ensures Authorize(next, p, d) == Authorize(s, p, d)
    {
      if d != decision { UntouchedAnswer(s, i, g, p, d); } else { ElsewhereAnswered(env, s, i, g, p, d); }
    }
  }

  /** Removing a decision deletes exactly its binding and the drafts it was created from. If the group answers for it,
      nobody is authorised for it any more; every other answer stays, and whatever was reserved for it can no longer be
      created. */
  lemma RemoveDecisionGives(env: Env, s: State, who: Id, id: Id, version: nat, item: Id)
    requires WellFormed(env, s) && RemoveItem(s, who, id, version, DecisionItem, item).Ok?
    ensures var i := OrganizedGroup(s, who, id).value;
            var next := RemoveItem(s, who, id, version, DecisionItem, item).value;
            && |next.groups| == |s.groups| && next == Put(s, i, next.groups[i])
            && Gone(next, i, item) && OnlyShuts(s, next, i, item)
            && (forall x :: DraftIn(next.groups[i], x) == WithoutDecision(DraftIn(s.groups[i], x), item))
            && (forall x, a: Attempt :: a.groupId == id && a.decisionId == item ==> CreationFence(next, x, a).Err?)
  {
    var i := OrganizedGroup(s, who, id).value;
    var next := RemoveItem(s, who, id, version, DecisionItem, item).value;
    RemovedBinding(s, who, id, version, item);
    RemoveItemKeeps(env, s, who, id, version, DecisionItem, item);
    WithoutBindingGives(env, s, i, next.groups[i], item);
    forall x, a: Attempt | a.groupId == id && a.decisionId == item ensures CreationFence(next, x, a).Err? {
      RemovedIsFenced(env, next, i, x, a);
    }
  }

  /** No creation of a removed decision passes the fence. */
  lemma RemovedIsFenced(env: Env, s: State, i: nat, x: Id, a: Attempt)
    requires WellFormed(env, s) && i < |s.groups| && s.groups[i].id == a.groupId && Gone(s, i, a.decisionId)
    ensures CreationFence(s, x, a).Err?
  {
    if OrganizedGroup(s, x, a.groupId).Ok? {
      OrganizedIs(env, s, x, a.groupId, i);
      assert GroupOk(env, s.accounts, s.groups[i]);
      var k := FindBinding(s.groups[i].decisions, a.decisionId).value;
      forall j | 0 <= j < |s.groups[i].decisions| && s.groups[i].decisions[j].id == a.decisionId ensures j == k {
        assert k < j ==> DifferentBindings(s.groups[i].decisions[k], s.groups[i].decisions[j]);
      }
    }
  }

  /** A decision that its group has removed, and that nobody binds by hand elsewhere, is closed for good: along every
      later run nobody is authorised for it, and every approved participant is told that it is not found. A decision
      that was created from a draft is never bound by hand. */
  lemma RemovedForGood(env: Env, s: State, who: Id, id: Id, version: nat, item: Id, events: seq<Event>, p: Principal)
    requires Injective(env) && WellFormed(env, s) && AllAllowed(env, events)
    requires RemoveItem(s, who, id, version, DecisionItem, item).Ok?
    requires BindingGroup(s, item) == Some(OrganizedGroup(s, who, id).value)
    requires Derived(env, item) || NotByHand(events, item)
    ensures var last := Run(env, RemoveItem(s, who, id, version, DecisionItem, item).value, events);
            && Authorize(last, p, item).Err?
            && (p.Participant? && IsApproved(last.accounts, p.subject) ==> Authorize(last, p, item) == Err(NotFound))
  {
    var i := OrganizedGroup(s, who, id).value;
    var next := RemoveItem(s, who, id, version, DecisionItem, item).value;
    RemovedBinding(s, who, id, version, item);
    RemoveItemKeeps(env, s, who, id, version, DecisionItem, item);
    SameBinders(s, i, next.groups[i], item);
    WithoutBindingGives(env, s, i, next.groups[i], item);
    if Derived(env, item) { DerivedNotByHand(env, events, item); }
    GoneForGood(env, next, events, i, p, item);
  }

  // ----- removing a draft

  predicate DraftGone(s: State, i: nat, draftId: Id) {
    i < |s.groups| && DraftIn(s.groups[i], draftId).Some?
    && (s.groups[i].deleted || DraftIn(s.groups[i], draftId).value.deleted)
  }

  /** Nobody edits, reserves or saves over a deleted draft. */
  lemma DeletedDraftRefuses(env: Env, s: State, i: nat, draftId: Id, e: Event)
    requires WellFormed(env, s) && DraftGone(s, i, draftId)
    requires (e.EditE? || e.ReserveE? || e.SaveDraftE?) && e.id == s.groups[i].id && e.draftId == draftId
    ensures Apply(env, s, e).Err?
  {
    if OrganizedGroup(s, e.who, e.id).Ok? { OrganizedIs(env, s, e.who, e.id, i); }
  }

  lemma DraftGoneStays(env: Env, s: State, e: Event, i: nat, draftId: Id)
    requires DraftGone(s, i, draftId)
    ensures DraftGone(Step(env, s, e), i, draftId) && Step(env, s, e).groups[i].id == s.groups[i].id
  {
    EveryStepEvolves(env, s, e);
    var g, g' := s.groups[i], Step(env, s, e).groups[i];
    assert Evolves(env, e, g, g');
    var k := FindDraft(g.drafts, draftId).value;
    assert DraftFollows(g.drafts[k], g'.drafts[k]);
    FindStays(g.drafts, g'.drafts, draftId);
  }

  lemma FindStays(drafts: seq<Draft>, next: seq<Draft>, x: Id)
    requires |next| >= |drafts| && forall k :: 0 <= k < |drafts| ==> next[k].id == drafts[k].id
    requires FindDraft(drafts, x).Some?
    ensures FindDraft(next, x) == FindDraft(drafts, x)
  {
  }

  /** However the run goes on, a deleted draft is never edited, reserved or saved again. */
  lemma {:induction false} DraftGoneForGood(env: Env, s: State, events: seq<Event>, i: nat, draftId: Id, e: Event)
    requires Injective(env) && WellFormed(env, s) && AllAllowed(env, events) && DraftGone(s, i, draftId)
    requires (e.EditE? || e.ReserveE? || e.SaveDraftE?) && e.id == s.groups[i].id && e.draftId == draftId
    ensures Apply(env, Run(env, s, events), e).Err?
    decreases |events|
  {
    if events == [] {
      DeletedDraftRefuses(env, s, i, draftId, e);
    } else {
      assert Allowed(env, events[0]);
      StepKeeps(env, s, events[0]);
      DraftGoneStays(env, s, events[0], i, draftId);
      DraftGoneForGood(env, Step(env, s, events[0]), events[1..], i, draftId, e);
    }
  }

  /** Removing a draft deletes exactly this draft, and changes no answer. */
  lemma RemoveDraftGives(env: Env, s: State, who: Id, id: Id, version: nat, item: Id)
    requires WellFormed(env, s) && RemoveItem(s, who, id, version, DraftItem, item).Ok?
    ensures var i := OrganizedGroup(s, who, id).value;
            var next := RemoveItem(s, who, id, version, DraftItem, item).value;
            && |next.groups| == |s.groups| && NoAnswerChanges(s, next) && DraftGone(next, i, item)
            && (forall x :: DraftIn(next.groups[i], x) ==
                              if x == item then Some(DraftIn(s.groups[i], x).value.(deleted := true))
                              else DraftIn(s.groups[i], x))
  {
    var i := OrganizedGroup(s, who, id).value;
    var g := s.groups[i];
    var k := FindDraft(g.drafts, item).value;
    var d := g.drafts[k].(deleted := true);
    RedraftedAt(s, i, k, d);
    forall x { SameDrafts(g.drafts, g.drafts[k := d], x); }
  }

  // ----- deleting a group

  /** Deleting a group shuts every decision it answers for and deletes every draft of it; nobody finds the group any
      more, and no answer for any other decision changes. */
  lemma DeleteGroupGives(env: Env, s: State, who: Id, id: Id, version: nat)
    requires WellFormed(env, s) && DeleteGroup(s, who, id, version).Ok?
    ensures var i := OrganizedGroup(s, who, id).value;
            var next := DeleteGroup(s, who, id, version).value;
            && |next.groups| == |s.groups| && next == Put(s, i, next.groups[i]) && s.groups[i].version == version
            && next.groups[i].version == version + 1 && next.groups[i].deleted
            && (forall x :: GroupOf(next, x, id).Err?)
            && (forall d :: Binds(s.groups[i], d) ==> Gone(next, i, d))
            && (forall x :: DraftIn(s.groups[i], x).Some? ==> DraftGone(next, i, x))
            && (forall p: Principal, d :: if BindingGroup(s, d) == Some(i) then Authorize(next, p, d).Err?
                                          else Authorize(next, p, d) == Authorize(s, p, d))
  {
    var i := OrganizedGroup(s, who, id).value;
    var g := s.groups[i];
    var next := DeleteGroup(s, who, id, version).value;
    var g' := next.groups[i];
    DeleteGroupKeeps(env, s, who, id, version);
    forall x ensures GroupOf(next, x, id).Err? {
      if GroupOf(next, x, id).Ok? && GroupOf(next, x, id).value != i {
        GroupsDiffer(env, next, GroupOf(next, x, id).value, i);
      }
    }
    forall d | Binds(g, d) ensures Gone(next, i, d) { SameBinders(s, i, g', d); }
    forall x | DraftIn(g, x).Some? ensures DraftGone(next, i, x) { SameDrafts(g.drafts, g'.drafts, x); }
    forall p: Principal, d
      ensures if BindingGroup(s, d) == Some(i) then Authorize(next, p, d).Err?
              else Authorize(next, p, d) == Authorize(s, p, d)
    {
      SameBinders(s, i, g', d);
      if BindingGroup(s, d) == Some(i) {
        GoneAnswers(env, next, i, p, d);
      } else {
        ElsewhereAnswered(env, s, i, g', p, d);
      }
    }
  }
}
