/** An installer's private folder and what it has ever asked the cloud to do: write-once files, two kinds of
    mutation, and a run that may end at any point. */
module InstallState {
  import opened Prelude

  /** A plan is determined by the source commit it was made from; everything else in it is fixed. */
  type Plan = nat

  datatype Target = Target(changeSet: nat, stack: nat)
  datatype Body = Body(plan: Plan, target: Target, additions: nat)
  datatype Record = Record(body: Body, hash: nat)

  datatype Name =
    PlanFile | TemplateFile | CreateIntent | CreateAck | ReviewFile | ExecuteIntent | ExecuteAck | ConfigurationFile
                | BaselineFile(role: nat) | DocumentFile(policy: nat)

  datatype Content =
    | PlanIs(plan: Plan)
    | TemplateIs
    | CreateFor(createPlan: Plan)
    | AckIs(target: Target)
    | ReviewIs(record: Record)
    | ExecuteFor(review: Record)
    | AckEmpty
    | Configured(stack: nat)
    | PreviewFor(source: Plan, name: nat, token: nat)
    | ExecuteTarget(boundTo: Plan, chosen: Target)
    | Observed(what: nat)

  /** A file that exists was either written in full or cut short by a crash; loading the latter fails. */
  datatype File = Torn | Full(content: Content)

  /** The files, and the create and execute mutations ever sent from this folder. */
  datatype FolderState<+C, +E> = FolderState(files: map<Name, File>, created: seq<C>, executed: seq<E>)

  /** A reviewed installer's plan determines its create request, and its execute request names a change set. */
  type World = FolderState<Plan, nat>

  const EMPTY: World := FolderState(map[], [], [])

  datatype Loaded = Missing | Found(content: Content) | Unreadable

  class Folder<C, E> {
    /** No run ends inside a write. */
    const calm: bool
    var files: map<Name, File>
    var created: seq<C>
    var executed: seq<E>

    constructor (calm: bool)
      ensures this.calm == calm && Now() == FolderState(map[], [], [])
    {
      this.calm := calm;
      files, created, executed := map[], [], [];
    }

    function Now(): FolderState<C, E>
      reads this
    {
      FolderState(files, created, executed)
    }

    method Load(name: Name) returns (r: Loaded)
      ensures r == if name !in files then Missing else if files[name] == Torn then Unreadable
              else Found(files[name].content)
    {
      if name !in files { return Missing; }
      match files[name]
      case Torn => return Unreadable;
      case Full(content) => return Found(content);
    }

    /** Never overwrites: an existing file must already hold the same bytes. The run may end before, during or
        after the write. */
    method Save(name: Name, content: Content) returns (ok: bool)
      modifies this`files
      ensures name in old(files) ==> files == old(files)
      ensures name !in old(files) ==>
                files == old(files) || files == old(files)[name := Torn] || files == old(files)[name := Full(content)]
      ensures ok ==> name in files && files[name] == Full(content)
      ensures name in old(files) ==> (ok <==> old(files)[name] == Full(content))
      ensures calm && name !in old(files) ==> ok
    {
      if name in files { return files[name] == Full(content); }
      var written: bool, whole: bool, goesOn: bool := *, *, *;
      if calm { written, whole, goesOn := true, true, true; }
      if !written { return false; }
      files := files[name := if whole then Full(content) else Torn];
      return whole && goesOn;
    }
  }

  /** What holds of the folder between any two steps of any run. */
  ghost predicate Lawful(digest: Body -> nat, w: World) {
    && |w.created| <= 1 && |w.executed| <= 1
    && (w.created != [] ==> CreateIntent in w.files && w.files[CreateIntent] == Full(CreateFor(w.created[0])))
    && (w.executed != [] ==>
          ExecuteIntent in w.files && w.files[ExecuteIntent].Full? && w.files[ExecuteIntent].content.ExecuteFor?
                             && w.files[ExecuteIntent].content.review.body.target.changeSet == w.executed[0])
    && (ExecuteIntent in w.files ==>
          && ReviewFile in w.files && w.files[ReviewFile].Full? && w.files[ReviewFile].content.ReviewIs?
          && (w.files[ExecuteIntent].Full? ==>
                w.files[ExecuteIntent].content == ExecuteFor(w.files[ReviewFile].content.record)))
    && (ReviewFile in w.files ==>
          && CreateIntent in w.files && w.files[CreateIntent].Full? && w.files[CreateIntent].content.CreateFor?
          && (w.files[ReviewFile].Full? ==>
                && w.files[ReviewFile].content.ReviewIs?
                && w.files[ReviewFile].content.record.body.plan == w.files[CreateIntent].content.createPlan
                && w.files[ReviewFile].content.record.hash == digest(w.files[ReviewFile].content.record.body)))
    && (CreateIntent in w.files ==>
          && PlanFile in w.files && w.files[PlanFile].Full? && w.files[PlanFile].content.PlanIs?
          && (w.files[CreateIntent].Full? ==>
                w.files[CreateIntent].content == CreateFor(w.files[PlanFile].content.plan)))
    && (CreateAck in w.files && w.files[CreateAck].Full? ==> w.files[CreateAck].content.AckIs?)
  }

  datatype Action = Prepare | Review | Execute(hash: nat) | Resume | Readback
  datatype Command = Command(plan: Plan, action: Action)

  /** Files are written once, and nothing that was sent is taken back. */
  ghost predicate Grows<C, E>(before: FolderState<C, E>, after: FolderState<C, E>) {
    && (forall n :: n in before.files ==> n in after.files && after.files[n] == before.files[n])
    && before.created <= after.created && before.executed <= after.executed
  }

  /** The record whose approval a command may act on. */
  ghost predicate Approves(before: World, c: Command, record: Record) {
    && c.action == Execute(record.hash) && record.body.plan == c.plan
    && ReviewFile in before.files && before.files[ReviewFile] == Full(ReviewIs(record))
  }

  /** All that one run of the program may do to the folder and send to the cloud. */
  ghost predicate Permitted(before: World, after: World, c: Command) {
    && Grows(before, after)
    && (after.created != before.created ==>
          && c.action == Prepare && CreateIntent !in before.files && ExecuteIntent !in before.files
          && after.created == before.created + [c.plan])
    && (after.executed != before.executed ==>
          && ExecuteIntent !in before.files
          && exists record ::
               Approves(before, c, record) && after.executed == before.executed + [record.body.target.changeSet])
  }

  /** Two parts of a run, the first of which sends nothing and writes none of the files that matter later. */
  lemma Then(a: World, b: World, w: World, c: Command)
    requires Grows(a, b) && b.created == a.created && b.executed == a.executed
    requires Permitted(b, w, c)
    requires forall record :: Approves(b, c, record) ==> Approves(a, c, record)
    ensures Permitted(a, w, c)
  {
    if w.executed != b.executed {
      var record :| Approves(b, c, record) && w.executed == b.executed + [record.body.target.changeSet];
      assert Approves(a, c, record);
    }
  }

  /** A file that is neither an intent, a review, nor an acknowledgement is written without consequence. */
  lemma SavingKeepsLaw(digest: Body -> nat, w: World, name: Name, file: File)
    requires Lawful(digest, w) && name !in w.files
    requires name in {TemplateFile, ConfigurationFile, ExecuteAck} || (name == PlanFile && CreateIntent !in w.files)
             || (name == CreateAck && (file.Full? ==> file.content.AckIs?))
    ensures Lawful(digest, w.(files := w.files[name := file])) && Grows(w, w.(files := w.files[name := file]))
  {
  }

  // ----- any number of runs

  ghost predicate RunAt(digest: Body -> nat, worlds: seq<World>, commands: seq<Command>, k: nat)
    requires k < |commands| && |worlds| == |commands| + 1
  {
    Permitted(worlds[k], worlds[k + 1], commands[k]) && Lawful(digest, worlds[k + 1])
  }

  /** A history of the folder: before the first command, and after each one. */
  ghost predicate History(digest: Body -> nat, worlds: seq<World>, commands: seq<Command>) {
    && |worlds| == |commands| + 1 && worlds[0] == EMPTY
    && forall k :: 0 <= k < |commands| ==> RunAt(digest, worlds, commands, k)
  }

  lemma ExtendHistory(digest: Body -> nat, worlds: seq<World>, commands: seq<Command>, w: World, c: Command)
    requires History(digest, worlds, commands) && Permitted(worlds[|commands|], w, c) && Lawful(digest, w)
    ensures History(digest, worlds + [w], commands + [c])
  {
    forall k | 0 <= k < |commands| + 1 ensures RunAt(digest, worlds + [w], commands + [c], k) {
      if k < |commands| { assert RunAt(digest, worlds, commands, k); }
    }
  }

  lemma {:induction false} HistoryGrows(digest: Body -> nat, worlds: seq<World>, commands: seq<Command>, i: nat, j: nat)
    requires History(digest, worlds, commands) && i <= j < |worlds|
    ensures Grows(worlds[i], worlds[j])
    decreases j
  {
    if i < j {
      HistoryGrows(digest, worlds, commands, i, j - 1);
      assert RunAt(digest, worlds, commands, j - 1);
    }
  }

  lemma LawfulThroughout(digest: Body -> nat, worlds: seq<World>, commands: seq<Command>, k: nat)
    requires History(digest, worlds, commands) && k < |worlds|
    ensures Lawful(digest, worlds[k])
  {
    if k > 0 { assert RunAt(digest, worlds, commands, k - 1); }
  }

  /** The chain of evidence behind an execute intent, in every state of the folder. */
  lemma IntentChain(digest: Body -> nat, worlds: seq<World>, commands: seq<Command>, k: nat)
    requires History(digest, worlds, commands) && k < |worlds| && ExecuteIntent in worlds[k].files
    ensures var files := worlds[k].files;
            exists record: Record, plan: Plan ::
              && ReviewFile in files && files[ReviewFile] == Full(ReviewIs(record))
              && record.hash == digest(record.body)
              && (files[ExecuteIntent] == Torn || files[ExecuteIntent] == Full(ExecuteFor(record)))
              && record.body.plan == plan
              && CreateIntent in files && files[CreateIntent] == Full(CreateFor(plan))
              && PlanFile in files && files[PlanFile] == Full(PlanIs(plan))
  {
    LawfulThroughout(digest, worlds, commands, k);
    var files := worlds[k].files;
    var record := files[ReviewFile].content.record;
    assert files[ReviewFile] == Full(ReviewIs(record)) && files[PlanFile] == Full(PlanIs(record.body.plan));
  }

  /** From the moment an intent is there, whole or torn, no later run sends that mutation, nor, after an execute
      intent, the other one. */
  lemma {:induction false} IntentEndsIt(digest: Body -> nat, worlds: seq<World>, commands: seq<Command>, i: nat, j: nat)
    requires History(digest, worlds, commands) && i <= j < |worlds|
    ensures CreateIntent in worlds[i].files ==> worlds[j].created == worlds[i].created
    ensures ExecuteIntent in worlds[i].files ==>
              worlds[j].executed == worlds[i].executed && worlds[j].created == worlds[i].created
    decreases j
  {
    if i < j {
      IntentEndsIt(digest, worlds, commands, i, j - 1);
      HistoryGrows(digest, worlds, commands, i, j - 1);
      assert RunAt(digest, worlds, commands, j - 1);
    }
  }

  ghost predicate Collisionless(digest: Body -> nat) {
    forall x, y :: digest(x) == digest(y) ==> x == y
  }

  /** Every review body with this hash is about the one change set. */
  ghost predicate HashNames(digest: Body -> nat, hash: nat, changeSet: nat) {
    forall body :: digest(body) == hash ==> body.target.changeSet == changeSet
  }

  /** At most one create and one execute are ever sent. What is executed is the change set of a record that was
      already on disk when an operator named its hash; under a digest without collisions it is the change set of
      whatever body has that hash. */
  lemma {:induction false} ExecutedAsApproved(digest: Body -> nat, worlds: seq<World>, commands: seq<Command>, j: nat)
    requires History(digest, worlds, commands) && j < |worlds|
    ensures |worlds[j].created| <= 1 && |worlds[j].executed| <= 1
    ensures worlds[j].executed != [] ==>
              exists k, record :: 0 <= k < j && Approves(worlds[k], commands[k], record)
                                  && record.hash == digest(record.body)
                                  && worlds[j].executed == [record.body.target.changeSet]
                                  && (Collisionless(digest) ==>
                                        HashNames(digest, record.hash, worlds[j].executed[0]))
    decreases j
  {
    LawfulThroughout(digest, worlds, commands, j);
    if j > 0 && worlds[j].executed != [] {
      assert RunAt(digest, worlds, commands, j - 1);
      if worlds[j].executed == worlds[j - 1].executed {
        ExecutedAsApproved(digest, worlds, commands, j - 1);
      } else {
        LawfulThroughout(digest, worlds, commands, j - 1);
        var record :| Approves(worlds[j - 1], commands[j - 1], record)
                      && worlds[j].executed == worlds[j - 1].executed + [record.body.target.changeSet];
        assert worlds[j].executed == [record.body.target.changeSet];
      }
    }
  }

  /** Two approvals of one hash, at any two moments of the folder's life, mean the same change set. */
  lemma ApprovalIsUnique(digest: Body -> nat, worlds: seq<World>, commands: seq<Command>, i: nat, j: nat, a: Record,
                         b: Record)
    requires History(digest, worlds, commands) && i < |commands| && j < |commands|
    requires Approves(worlds[i], commands[i], a) && Approves(worlds[j], commands[j], b)
    ensures a == b
  {
    if i <= j { HistoryGrows(digest, worlds, commands, i, j); } else { HistoryGrows(digest, worlds, commands, j, i); }
  }
}
