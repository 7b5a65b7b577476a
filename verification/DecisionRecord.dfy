/** What a decision's record says about who takes part in it, and how the kernel lets that change. */
module DecisionRecord {
  import opened Prelude
  import opened GroupState
  import opened GroupTransitions

  /** What the creation body hash digests. */
  datatype Body = Body(groupId: Id, draftId: Id, revision: nat, groupVersion: nat, frame: Frame)

  /** Every state of a decision in which its outcome is not settled counts as open. */
  datatype Standing = Open | Agreed | Closed

  datatype Record = Record(body: Body, creator: Id, frame: Frame, memberships: seq<Member>, standing: Standing,
                           control: nat)

  predicate Finished(r: Record) { r.standing != Open }

  /** A member is listed under an identifier that the decision names as a participant. */
  predicate IsMember(r: Record, who: Id) {
    exists k :: 0 <= k < |r.memberships| && r.memberships[k].subject == who
                && r.memberships[k].participantId in r.frame.participants
  }

  function ParticipantIds(members: seq<Member>): (r: seq<Id>)
    ensures |r| == |members| && forall k :: 0 <= k < |r| ==> r[k] == members[k].participantId
  {
    seq(|members|, k requires 0 <= k < |members| => members[k].participantId)
  }

  function Subjects(members: seq<Member>): (r: seq<Id>)
    ensures |r| == |members| && forall k :: 0 <= k < |r| ==> r[k] == members[k].subject
  {
    seq(|members|, k requires 0 <= k < |members| => members[k].subject)
  }

  predicate Covers<T(==)>(all: seq<T>, some: seq<T>) {
    forall k :: 0 <= k < |some| ==> some[k] in all
  }

  /** All of a frame that its participants share. */
  predicate SameTerms(a: Frame, b: Frame) {
    a.title == b.title && a.objective == b.objective && a.content == b.content
  }

  /** Memberships for these participants: each of them once, under different subjects. */
  predicate Matching(participants: seq<Id>, members: seq<Member>) {
    multiset(participants) == multiset(ParticipantIds(members)) && Distinct(ParticipantIds(members))
    && Distinct(Subjects(members))
  }

  /** People who have joined are appended. Nobody recorded may be missing, and a finished decision stays as it is. */
  function IncludeMembers(r: Record, participants: seq<Id>, members: seq<Member>): Option<Record> {
    if Finished(r) then Some(r)
    else if !Covers(participants, r.frame.participants) || !Covers(members, r.memberships) then None
    else if !Distinct(ParticipantIds(members)) || !Distinct(Subjects(members)) || |members| != |participants|
            || !Covers(participants, ParticipantIds(members)) then None
    else
      var additions := Filter(participants, (p: Id) => p !in r.frame.participants);
      if additions == [] then Some(r)
      else Some(r.(frame := r.frame.(participants := r.frame.participants + additions), memberships := members,
                   standing := Open, control := r.control + 1))
  }

  /** A revision that only adds people includes them; any other replaces frame and memberships and opens the decision
      again. What is recorded of a finished decision is not touched by a change of its people alone. */
  function ReviseRecord(r: Record, frame: Frame, members: seq<Member>): Option<Record> {
    if SameTerms(frame, r.frame) && Finished(r) then Some(r)
    else if SameTerms(frame, r.frame) && Covers(frame.participants, r.frame.participants)
            && Covers(members, r.memberships) then IncludeMembers(r, frame.participants, members)
    else if r.standing == Closed || !Matching(frame.participants, members) then None
    else Some(r.(frame := frame, memberships := members, standing := Open, control := r.control + 1))
  }

  // ----- what stays true of a record

  /** The members are the participants, each once. */
  ghost predicate Enlists(participants: seq<Id>, members: seq<Member>) {
    Distinct(participants) && Distinct(ParticipantIds(members))
    && Elements(participants) == Elements(ParticipantIds(members))
  }

  /** The record has exactly these members, each once, whatever their order. */
  ghost predicate HasMembers(r: Record, members: seq<Member>) {
    Enlists(r.frame.participants, r.memberships) && Elements(r.memberships) == Elements(members)
  }

  lemma MatchingEnlists(participants: seq<Id>, members: seq<Member>)
    requires Matching(participants, members)
    ensures Enlists(participants, members)
  {
    var ids := ParticipantIds(members);
    assert |multiset(ids)| == |ids| && |multiset(participants)| == |participants|;
    forall x ensures x in ids <==> x in participants {
      assert x in multiset(ids) <==> x in multiset(participants);
    }
    SameElements(ids, participants);
  }

  lemma AppendedEnlists(before: seq<Id>, additions: seq<Id>, participants: seq<Id>)
    requires Distinct(before) && Distinct(participants) && forall x :: x in before ==> x in participants
    requires additions == Filter(participants, (p: Id) => p !in before)
    ensures Distinct(before + additions) && Elements(before + additions) == Elements(participants)
  {
    FilterDistinct(participants, (p: Id) => p !in before);
    var all := before + additions;
    forall i, j | 0 <= i < j < |all| ensures all[i] != all[j] {
      if i < |before| <= j { assert all[j] in additions && all[i] in before; }
    }
    forall x ensures x in all <==> x in participants {
      if x in participants { assert x in before || x in additions; }
    }
  }

  /** Members who fit the recorded participants and cover the recorded members are the recorded members. */
  lemma NobodyNew(participants: seq<Id>, before: seq<Member>, members: seq<Member>)
    requires Enlists(participants, before) && Distinct(ParticipantIds(members))
    requires forall m :: m in before ==> m in members
    requires forall m :: m in members ==> m.participantId in participants
    ensures Elements(before) == Elements(members)
  {
    forall m | m in members ensures m in before {
      var k :| 0 <= k < |members| && members[k] == m;
      assert m.participantId in Elements(ParticipantIds(before));
      var j :| 0 <= j < |before| && ParticipantIds(before)[j] == m.participantId;
      assert before[j] in before && before[j] in members;
      var l :| 0 <= l < |members| && members[l] == before[j];
      assert ParticipantIds(members)[k] == ParticipantIds(members)[l];
      assert k == l;
    }
  }

  lemma AllListed(participants: seq<Id>, members: seq<Member>)
    requires Covers(participants, ParticipantIds(members)) && |members| == |participants|
    requires Distinct(ParticipantIds(members))
    ensures Enlists(participants, members)
    ensures forall m :: m in members ==> m.participantId in participants
  {
    SameElements(ParticipantIds(members), participants);
    forall m | m in members ensures m.participantId in participants {
      var k :| 0 <= k < |members| && members[k] == m;
      assert ParticipantIds(members)[k] in participants;
    }
  }

  /** Including the members of a group: an open decision has exactly those afterwards, the recorded participants first
      and in their order, on the same terms; a finished one is as it was. */
  lemma IncludeGives(r: Record, participants: seq<Id>, members: seq<Member>)
    requires Enlists(r.frame.participants, r.memberships) && IncludeMembers(r, participants, members).Some?
    ensures var next := IncludeMembers(r, participants, members).value;
            && SameTerms(next.frame, r.frame) && r.frame.participants <= next.frame.participants
            && Enlists(next.frame.participants, next.memberships)
            && (if Finished(r) then next == r else HasMembers(next, members) && !Finished(next))
            && (next == r || next.control == r.control + 1)
  {
    if !Finished(r) {
      var additions := Filter(participants, (p: Id) => p !in r.frame.participants);
      AllListed(participants, members);
      if additions == [] {
        forall m | m in members ensures m.participantId in r.frame.participants {
          assert m.participantId in participants;
        }
        NobodyNew(r.frame.participants, r.memberships, members);
      } else {
        AppendedEnlists(r.frame.participants, additions, participants);
      }
    }
  }

  lemma IncludedStays(r: Record, participants: seq<Id>, members: seq<Member>, who: Id)
    requires IncludeMembers(r, participants, members).Some? && IsMember(r, who)
    ensures IsMember(IncludeMembers(r, participants, members).value, who)
  {
    var next := IncludeMembers(r, participants, members).value;
    if next != r {
      var k :| 0 <= k < |r.memberships| && r.memberships[k].subject == who
               && r.memberships[k].participantId in r.frame.participants;
      var l :| 0 <= l < |members| && members[l] == r.memberships[k];
      assert next.memberships[l].participantId in next.frame.participants;
    }
  }

  /** A revision leaves exactly the new members on the new terms, unless it would only change the people of a finished
      decision, which is as it was. */
  lemma ReviseGives(r: Record, frame: Frame, members: seq<Member>)
    requires Enlists(r.frame.participants, r.memberships) && ReviseRecord(r, frame, members).Some?
    ensures var next := ReviseRecord(r, frame, members).value;
            && SameTerms(next.frame, frame) && Enlists(next.frame.participants, next.memberships)
            && (if SameTerms(frame, r.frame) && Finished(r) then next == r
                else HasMembers(next, members) && !Finished(next))
            && (next == r || next.control == r.control + 1)
  {
    if SameTerms(frame, r.frame) && Finished(r) {
    } else if SameTerms(frame, r.frame) && Covers(frame.participants, r.frame.participants)
              && Covers(members, r.memberships) {
      IncludeGives(r, frame.participants, members);
    } else {
      MatchingEnlists(frame.participants, members);
    }
  }

  lemma RevisedStays(r: Record, frame: Frame, members: seq<Member>, who: Id)
    requires Enlists(r.frame.participants, r.memberships) && ReviseRecord(r, frame, members).Some?
    requires IsMember(r, who) && exists m :: m in members && m.subject == who
    ensures IsMember(ReviseRecord(r, frame, members).value, who)
  {
    ReviseGives(r, frame, members);
    var next := ReviseRecord(r, frame, members).value;
    if next != r {
      var m :| m in members && m.subject == who;
      assert m in Elements(next.memberships);
      EnlistedIsMember(next, m);
    }
  }

  lemma EnlistedIsMember(r: Record, m: Member)
    requires Enlists(r.frame.participants, r.memberships) && m in r.memberships
    ensures IsMember(r, m.subject)
  {
    var k :| 0 <= k < |r.memberships| && r.memberships[k] == m;
    assert ParticipantIds(r.memberships)[k] in Elements(r.frame.participants);
  }

  // ----- exactly when the kernel lets it change

  /** As many different identifiers as participants, all of them participants: each participant once. */
  lemma CoveredMatches(participants: seq<Id>, members: seq<Member>)
    requires Distinct(ParticipantIds(members)) && Distinct(Subjects(members)) && |members| == |participants|
    requires Covers(participants, ParticipantIds(members))
    ensures Matching(participants, members)
  {
    var ids := ParticipantIds(members);
    SameElements(ids, participants);
    forall x ensures multiset(participants)[x] == multiset(ids)[x] {
      DistinctCounts(ids, x);
      DistinctCounts(participants, x);
      assert x in Elements(ids) <==> x in Elements(participants);
    }
  }

  lemma {:induction false} DistinctCounts(items: seq<Id>, x: Id)
    requires Distinct(items)
    ensures multiset(items)[x] == if x in items then 1 else 0
  {
    if items != [] {
      DistinctCounts(items[1..], x);
      assert items == [items[0]] + items[1..];
      assert items[0] !in items[1..];
    }
  }

  lemma MatchingCovers(participants: seq<Id>, members: seq<Member>)
    requires Matching(participants, members)
    ensures |members| == |participants| && Covers(participants, ParticipantIds(members))
  {
    var ids := ParticipantIds(members);
    assert |multiset(ids)| == |ids| && |multiset(participants)| == |participants|;
    forall k | 0 <= k < |ids| ensures ids[k] in participants { assert ids[k] in multiset(ids); }
  }

  /** People are included in an open decision if and only if the new members are its new participants, each once, and
      nobody recorded is missing. */
  lemma IncludeExactly(r: Record, participants: seq<Id>, members: seq<Member>)
    ensures IncludeMembers(r, participants, members).Some? <==>
              Finished(r)
              || (Matching(participants, members) && Covers(participants, r.frame.participants)
                  && Covers(members, r.memberships))
  {
    if IncludeMembers(r, participants, members).Some? && !Finished(r) { CoveredMatches(participants, members); }
    if Matching(participants, members) { MatchingCovers(participants, members); }
  }

  /** A decision is revised if and only if only the people of a finished one would change, or it is not closed and the
      new members are the new participants, each once. */
  lemma ReviseExactly(r: Record, frame: Frame, members: seq<Member>)
    ensures ReviseRecord(r, frame, members).Some? <==>
              (SameTerms(frame, r.frame) && r.standing in {Agreed, Closed})
              || (r.standing != Closed && Matching(frame.participants, members))
  {
    IncludeExactly(r, frame.participants, members);
  }
}
