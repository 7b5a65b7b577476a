/** The two installers that preview, wait for an operator to name the review hash, and then execute. They share
    one protocol; where the order of their checks differs, the flag says which of the two is meant. */
module ReviewedInstaller {
  import opened Prelude
  import opened InstallState

  const MAX_CALLS: nat := 32

  datatype Progress = InFlight | Available | Complete | Other

  /** What a remote read may answer: identifiers, a status, and whether everything else in it passed its checks. */
  datatype Reply = Reply(target: Target, progress: Progress, fit: bool)

  datatype Outcome =
    | Stopped
    | PreviewSubmitted
    | PreviewPending
    | ReviewReady(hash: nat)
    | InstallSubmitted
    | InstallPending
    | ConfigurationMatch

  datatype Reviewed = Failed | NotYet | Ready(record: Record)

  /** This many new answers were read, and all of them passed. */
  ghost predicate Passed(before: seq<Reply>, after: seq<Reply>, n: nat) {
    before <= after && |after| >= |before| + n && forall k :: |before| <= k < |before| + n ==> after[k].fit
  }

  /** An answer read since then showed this change set as available and passed its checks. */
  ghost predicate SawAvailable(before: seq<Reply>, after: seq<Reply>, target: Target) {
    before <= after && exists k :: |before| <= k < |after| && after[k] == Reply(target, Available, true)
  }

  lemma SawEarlier(before: seq<Reply>, middle: seq<Reply>, after: seq<Reply>)
    requires before <= middle <= after
    ensures forall target: Target :: SawAvailable(middle, after, target) ==> SawAvailable(before, after, target)
  {
    forall target: Target | SawAvailable(middle, after, target) ensures SawAvailable(before, after, target) {
      var k :| |middle| <= k < |after| && after[k] == Reply(target, Available, true);
    }
  }

  lemma SawLater(before: seq<Reply>, middle: seq<Reply>, after: seq<Reply>)
    requires before <= middle <= after
    ensures forall target: Target :: SawAvailable(before, middle, target) ==> SawAvailable(before, after, target)
  {
    forall target: Target | SawAvailable(before, middle, target) ensures SawAvailable(before, after, target) {
      var k :| |before| <= k < |middle| && middle[k] == Reply(target, Available, true);
      assert after[k] == middle[k];
    }
  }

  /** The last new answer passed and showed this progress. */
  ghost predicate LastShowed(before: seq<Reply>, after: seq<Reply>, progress: Progress) {
    before < after && after[|after| - 1].fit && after[|after| - 1].progress == progress
  }

  class Installer {
    const folder: Folder<Plan, nat>
    const plan: Plan
    const partition: bool
    const additions: nat
    const digest: Body -> nat
    /** What the remote side answers to everything, if it does so at all; nothing is lost then. */
    const steady: Option<Reply>
    var calls: nat
    var mutations: nat
    ghost var answers: seq<Reply>

    constructor (folder: Folder<Plan, nat>, plan: Plan, partition: bool, additions: nat, digest: Body -> nat,
                 steady: Option<Reply>)
      ensures this.folder == folder && this.plan == plan && this.partition == partition && this.additions == additions
      ensures this.digest == digest && this.steady == steady && calls == 0 && mutations == 0 && answers == []
    {
      this.folder, this.plan, this.partition, this.additions, this.digest := folder, plan, partition, additions, digest;
      this.steady := steady;
      calls, mutations, answers := 0, 0, [];
    }

    ghost predicate Opened()
      reads folder
    {
      && PlanFile in folder.files && folder.files[PlanFile] == Full(PlanIs(plan))
      && Lawful(digest, folder.Now())
    }

    /** The review record of a change set. */
    function RecordOf(target: Target): Record {
      Record(Body(plan, target, additions), digest(Body(plan, target, additions)))
    }

    /** Nothing goes wrong: no crash, and every answer passes and is this one. */
    ghost predicate Calm(reply: Reply) {
      folder.calm && steady == Some(reply) && reply.fit
    }

    /** The create request of this plan has been sent, and no other change set was acknowledged. */
    ghost predicate Created(target: Target)
      reads folder
    {
      && CreateIntent in folder.files && folder.files[CreateIntent] == Full(CreateFor(plan))
      && (CreateAck in folder.files ==> folder.files[CreateAck] == Full(AckIs(target)))
    }

    // ----- the budgeted requests

    method Read() returns (r: Option<Reply>)
      requires calls <= MAX_CALLS
      modifies this`calls, this`answers
      ensures old(calls) <= calls <= MAX_CALLS
      ensures answers == if r.Some? then old(answers) + [r.value] else old(answers)
      ensures r.Some? ==> calls == old(calls) + 1
      ensures steady.Some? ==> r == if old(calls) < MAX_CALLS then steady else None
    {
      if calls >= MAX_CALLS { return None; }
      calls := calls + 1;
      r := *;
      if steady.Some? { r := steady; }
      if r.Some? { answers := answers + [r.value]; }
    }

    /** So many reads in a row, each of which must pass. */
    method Checks(n: nat) returns (ok: bool)
      requires calls <= MAX_CALLS
      modifies this`calls, this`answers
      ensures calls <= MAX_CALLS && old(answers) <= answers
      ensures ok ==> Passed(old(answers), answers, n) && |answers| == |old(answers)| + n && calls == old(calls) + n
      ensures steady.Some? && steady.value.fit && old(calls) + n <= MAX_CALLS ==> ok
    {
      for k := 0 to n
        invariant calls == old(calls) + k <= MAX_CALLS
        invariant Passed(old(answers), answers, k) && |answers| == |old(answers)| + k
      {
        var r := Read();
        if r.None? || !r.value.fit { return false; }
      }
      return true;
    }

    /** The request may be lost on its way, or sent with its acknowledgement lost. */
    method SendCreate() returns (r: Option<Reply>)
      requires calls <= MAX_CALLS
      modifies this`calls, this`mutations, this`answers, folder`created
      ensures calls <= MAX_CALLS && mutations <= old(mutations) + 1
      ensures folder.created == old(folder.created)
              || (mutations == old(mutations) + 1 && folder.created == old(folder.created) + [plan])
      ensures answers == if r.Some? then old(answers) + [r.value] else old(answers)
      ensures r.Some? ==> folder.created == old(folder.created) + [plan]
      ensures steady.Some? && old(calls) < MAX_CALLS ==> r == steady
    {
      if calls >= MAX_CALLS { return None; }
      calls, mutations := calls + 1, mutations + 1;
      var sent: bool := *;
      if !sent && steady.None? { return None; }
      folder.created := folder.created + [plan];
      r := *;
      if steady.Some? { r := steady; }
      if r.Some? { answers := answers + [r.value]; }
    }

    method SendExecute(changeSet: nat) returns (ok: bool)
      requires calls <= MAX_CALLS
      modifies this`calls, this`mutations, folder`executed
      ensures calls <= MAX_CALLS && mutations <= old(mutations) + 1
      ensures folder.executed == old(folder.executed)
              || (mutations == old(mutations) + 1 && folder.executed == old(folder.executed) + [changeSet])
      ensures ok ==> folder.executed == old(folder.executed) + [changeSet]
      ensures steady.Some? && old(calls) < MAX_CALLS ==> ok
    {
      if calls >= MAX_CALLS { return false; }
      calls, mutations := calls + 1, mutations + 1;
      var sent: bool := *;
      if !sent && steady.None? { return false; }
      folder.executed := folder.executed + [changeSet];
      ok := *;
      if steady.Some? { ok := true; }
    }

    // ----- the checks

    function IdentityCalls(): nat { if partition then 1 else 2 }

    method Identity() returns (ok: bool)
      requires calls <= MAX_CALLS
      modifies this`calls, this`answers
      ensures calls <= MAX_CALLS && old(answers) <= answers
      ensures ok ==>
                && Passed(old(answers), answers, IdentityCalls()) && |answers| == |old(answers)| + IdentityCalls()
                && calls == old(calls) + IdentityCalls()
      ensures steady.Some? && steady.value.fit && old(calls) + IdentityCalls() <= MAX_CALLS ==> ok
    {
      ok := Checks(IdentityCalls());
    }

    /** A change set, once acknowledged, may not become another one. */
    method Identifiers(target: Target) returns (ok: bool)
      ensures ok <==> CreateAck !in folder.files || folder.files[CreateAck] == Full(AckIs(target))
    {
      var ack := folder.Load(CreateAck);
      match ack
      case Unreadable => return false;
      case Missing => return true;
      case Found(content) => return content == AckIs(target);
    }

    method ChangeSet() returns (r: Option<Reply>)
      requires calls <= MAX_CALLS
      modifies this`calls, this`answers
      ensures calls <= MAX_CALLS && old(answers) <= answers
      ensures r.Some? ==>
                && Created(r.value.target) && r.value.fit
                && answers == old(answers) + [r.value] && calls == old(calls) + 1
      ensures steady.Some? && steady.value.fit && old(calls) < MAX_CALLS && Created(steady.value.target) ==> r == steady
      ensures steady.Some? ==> r in {None, steady}
    {
      var intent := folder.Load(CreateIntent);
      if intent != Found(CreateFor(plan)) { return None; }
      var reply := Read();
      if reply.None? || !reply.value.fit { return None; }
      var same := Identifiers(reply.value.target);
      if !same { return None; }
      return reply;
    }

    /** Reads the preview, which must be available, and then everything else about the change set. */
    method Inspect() returns (r: Reviewed)
      requires calls <= MAX_CALLS
      modifies this`calls, this`answers
      ensures calls <= MAX_CALLS && old(answers) <= answers
      ensures r.Ready? ==>
                && r.record == RecordOf(r.record.body.target) && Created(r.record.body.target)
                && SawAvailable(old(answers), answers, r.record.body.target)
                && Passed(old(answers), answers, 3) && |answers| == |old(answers)| + 3 && calls == old(calls) + 3
      ensures r.NotYet? ==> partition && LastShowed(old(answers), answers, InFlight)
      ensures forall target: Target ::
                steady == Some(Reply(target, Available, true)) && old(calls) + 3 <= MAX_CALLS && Created(target) ==>
                  r == Ready(RecordOf(target))
      ensures forall target: Target ::
                partition && steady == Some(Reply(target, InFlight, true)) && old(calls) < MAX_CALLS && Created(target)
                ==> r == NotYet
      ensures steady.Some? && steady.value.progress in {Complete, Other} ==> r == Failed
    {
      var reply := ChangeSet();
      if reply.None? { return Failed; }
      if partition && reply.value.progress == InFlight { return NotYet; }
      if reply.value.progress != Available { return Failed; }
      assert answers[|old(answers)|] == Reply(reply.value.target, Available, true);
      var same := Checks(2);
      if !same { return Failed; }
      assert SawAvailable(old(answers), answers, reply.value.target);
      return Ready(RecordOf(reply.value.target));
    }

    /** Reads the preview and records it; a second review must find exactly what the first one recorded. Only a change
        set that was seen to be available, and passed every check, is recorded. */
    method Review() returns (r: Reviewed)
      requires Opened() && calls <= MAX_CALLS
      modifies this`calls, this`answers, folder`files
      ensures Opened() && calls <= MAX_CALLS && old(answers) <= answers
              && Permitted(old(folder.Now()), folder.Now(), Command(plan, InstallState.Review))
      ensures forall n :: n in folder.files && n != ReviewFile ==> n in old(folder.files)
      ensures ExecuteIntent in old(folder.files) ==> ExecuteIntent in folder.files
      ensures r.Ready? ==>
                && ReviewFile in folder.files && folder.files[ReviewFile] == Full(ReviewIs(r.record))
                && r.record == RecordOf(r.record.body.target) && Created(r.record.body.target)
                && SawAvailable(old(answers), answers, r.record.body.target)
                && Passed(old(answers), answers, 3) && |answers| == |old(answers)| + 3 && calls == old(calls) + 3
      ensures ReviewFile in folder.files && ReviewFile !in old(folder.files) ==>
                exists target: Target ::
                  && SawAvailable(old(answers), answers, target) && Passed(old(answers), answers, 3)
                  && folder.files[ReviewFile] in {Torn, Full(ReviewIs(RecordOf(target)))}
      ensures r.NotYet? ==> partition && LastShowed(old(answers), answers, InFlight)
      ensures forall target: Target ::
                Calm(Reply(target, Available, true)) && old(calls) + 3 <= MAX_CALLS && old(Created(target))
                && (ReviewFile in old(folder.files) ==>
                      old(folder.files)[ReviewFile] == Full(ReviewIs(RecordOf(target))))
                ==> r == Ready(RecordOf(target))
      ensures forall target: Target ::
                partition && Calm(Reply(target, InFlight, true)) && old(calls) < MAX_CALLS && old(Created(target)) ==>
                  r == NotYet
      ensures steady.Some? && steady.value.progress in {Complete, Other} ==> r == Failed
    {
      r := Inspect();
      if !r.Ready? { return; }
      assert SawAvailable(old(answers), answers, r.record.body.target);
      var ok := folder.Save(ReviewFile, ReviewIs(r.record));
      if !ok { return Failed; }
    }

    // ----- the commands

    /** The reads before a create request. */
    function PrepareCalls(): nat { if partition then 4 else 7 }

    method Prepare() returns (r: Outcome)
      requires Opened() && calls == 0 && mutations == 0
      modifies this`calls, this`mutations, this`answers, folder
      ensures Opened() && calls <= MAX_CALLS && mutations <= 1 && old(answers) <= answers
      ensures Permitted(old(folder.Now()), folder.Now(), Command(plan, InstallState.Prepare))
      ensures folder.created != old(folder.created) ==> Passed(old(answers), answers, PrepareCalls())
      ensures r.PreviewSubmitted? ==>
                && folder.created == old(folder.created) + [plan]
                && Acknowledged(old(answers), answers)
      ensures ReviewGrounded(old(folder.files), folder.files, old(answers), answers)
      ensures forall reply ::
                Calm(reply) && CreateIntent !in old(folder.files) && ExecuteIntent !in old(folder.files)
                && (CreateAck in old(folder.files) ==> old(folder.files)[CreateAck] == Full(AckIs(reply.target)))
                ==> r == PreviewSubmitted && folder.files[CreateAck] == Full(AckIs(reply.target))
    {
      var executing := folder.Load(ExecuteIntent);
      if executing.Unreadable? { return Stopped; }
      if executing.Found? { r := Resume(); return; }
      var creating := folder.Load(CreateIntent);
      if creating.Unreadable? { return Stopped; }
      if creating.Found? { r := Resume(); return; }
      var fit := Identity();
      if !fit { return Stopped; }
      fit := Checks(if partition then 3 else 5);
      if !fit { return Stopped; }
      r := SubmitPreview();
    }

    /** The last answer passed its checks, and the change set it names is on record as the one that was created. */
    ghost predicate Acknowledged(before: seq<Reply>, after: seq<Reply>)
      reads folder
    {
      before < after && after[|after| - 1].fit
      && CreateAck in folder.files && folder.files[CreateAck] == Full(AckIs(after[|after| - 1].target))
    }

    /** The intent first, then the one request, and what its acknowledgement named. */
    method SubmitPreview() returns (r: Outcome)
      requires Opened() && calls <= MAX_CALLS && mutations == 0
      requires CreateIntent !in folder.files && ExecuteIntent !in folder.files
      modifies this`calls, this`mutations, this`answers, folder
      ensures Opened() && calls <= MAX_CALLS && mutations <= 1 && old(answers) <= answers
      ensures Permitted(old(folder.Now()), folder.Now(), Command(plan, InstallState.Prepare))
      ensures forall n :: n in folder.files && n !in old(folder.files) ==> n in {CreateIntent, CreateAck}
      ensures r in {Stopped, PreviewSubmitted}
      ensures r.PreviewSubmitted? ==>
                && folder.created == old(folder.created) + [plan]
                && Acknowledged(old(answers), answers)
      ensures forall reply ::
                Calm(reply) && old(calls) < MAX_CALLS
                && (CreateAck in old(folder.files) ==> old(folder.files)[CreateAck] == Full(AckIs(reply.target)))
                ==> r == PreviewSubmitted && folder.files[CreateAck] == Full(AckIs(reply.target))
    {
      var saved := folder.Save(CreateIntent, CreateFor(plan));
      if !saved { return Stopped; }
      var ack := SendCreate();
      if ack.None? || !ack.value.fit { return Stopped; }
      var same := Identifiers(ack.value.target);
      if !same { return Stopped; }
      saved := folder.Save(CreateAck, AckIs(ack.value.target));
      if !saved { return Stopped; }
      return PreviewSubmitted;
    }

    /** A review record that is new rests on an available change set that was read meanwhile. */
    ghost predicate ReviewGrounded(before: map<Name, File>, after: map<Name, File>, read: seq<Reply>,
                                   readNow: seq<Reply>) {
      ReviewFile in after && ReviewFile !in before ==>
        exists target: Target ::
          SawAvailable(read, readNow, target) && after[ReviewFile] in {Torn, Full(ReviewIs(RecordOf(target)))}
    }

    /** The record on disk with this hash is of a change set that was seen to be available. */
    ghost predicate ShowsRecord(hash: nat, read: seq<Reply>)
      reads folder, this`answers
    {
      exists target: Target ::
        && RecordOf(target).hash == hash && SawAvailable(read, answers, target)
        && ReviewFile in folder.files && folder.files[ReviewFile] == Full(ReviewIs(RecordOf(target)))
    }

    method ReviewCommand() returns (r: Outcome)
      requires Opened() && calls == 0 && mutations == 0
      modifies this`calls, this`mutations, this`answers, folder
      ensures Opened() && calls <= MAX_CALLS && mutations == 0 && old(answers) <= answers
      ensures Permitted(old(folder.Now()), folder.Now(), Command(plan, InstallState.Review))
      ensures ReviewGrounded(old(folder.files), folder.files, old(answers), answers)
      ensures r.ReviewReady? ==> ShowsRecord(r.hash, old(answers))
      ensures forall target: Target ::
                Calm(Reply(target, Available, true)) && old(Created(target)) && ExecuteIntent !in old(folder.files)
                && (ReviewFile in old(folder.files) ==>
                      old(folder.files)[ReviewFile] == Full(ReviewIs(RecordOf(target))))
                ==> r == ReviewReady(RecordOf(target).hash)
    {
      if partition { r := Resume(); return; }
      var executing := folder.Load(ExecuteIntent);
      if executing.Unreadable? { return Stopped; }
      if executing.Found? { r := Resume(); return; }
      var fit := Identity();
      if !fit { return Stopped; }
      ghost var read := answers;
      var reviewed := Review();
      SawEarlier(old(answers), read, answers);
      if !reviewed.Ready? { return Stopped; }
      return ReviewReady(reviewed.record.hash);
    }

    /** The reads before an execute request. */
    function ExecuteCalls(): nat { if partition then 5 else 8 }

    /** What was executed is a change set that this run saw to be available, after every check had passed. */
    ghost predicate ExecutionGrounded(before: seq<nat>, after: seq<nat>, read: seq<Reply>, readNow: seq<Reply>) {
      after != before ==>
        && Passed(read, readNow, ExecuteCalls())
        && exists target: Target :: SawAvailable(read, readNow, target) && after == before + [target.changeSet]
    }

    /** The record on disk that carries this hash, if a second review finds exactly it and every check passes. */
    method Approved(hash: nat) returns (r: Option<Record>)
      requires Opened() && calls == 0 && ExecuteIntent !in folder.files
      modifies this`calls, this`answers, folder`files
      ensures Opened() && calls <= MAX_CALLS && old(answers) <= answers
      ensures Permitted(old(folder.Now()), folder.Now(), Command(plan, InstallState.Review))
              && ExecuteIntent !in folder.files
      ensures forall n :: n in folder.files && n != ReviewFile ==> n in old(folder.files)
      ensures ReviewGrounded(old(folder.files), folder.files, old(answers), answers)
      ensures r.Some? ==>
                && Approves(old(folder.Now()), Command(plan, InstallState.Execute(hash)), r.value)
                && Approves(folder.Now(), Command(plan, InstallState.Execute(hash)), r.value)
                && SawAvailable(old(answers), answers, r.value.body.target)
                && Passed(old(answers), answers, ExecuteCalls()) && calls == ExecuteCalls()
      ensures forall target: Target ::
                Calm(Reply(target, Available, true)) && old(Created(target))
                && ReviewFile in old(folder.files) && old(folder.files)[ReviewFile] == Full(ReviewIs(RecordOf(target)))
                && RecordOf(target).hash == hash
                ==> r == Some(RecordOf(target))
    {
      var fit := Identity();
      if !fit { return None; }
      var saved := folder.Load(ReviewFile);
      if !saved.Found? || !saved.content.ReviewIs? || saved.content.record.hash != hash { return None; }
      ghost var read := answers;
      var current := Review();
      SawEarlier(old(answers), read, answers);
      if current != Ready(saved.content.record) { return None; }
      ghost var seen := answers;
      fit := Checks(if partition then 1 else 3);
      if !fit { return None; }
      SawLater(old(answers), seen, answers);
      return Some(current.record);
    }

    /** Only the record that is on disk, with the hash the operator names, and only if the remote preview still
        is exactly that, is executed. */
    method Execute(hash: nat) returns (r: Outcome)
      requires Opened() && calls == 0 && mutations == 0
      modifies this`calls, this`mutations, this`answers, folder
      ensures Opened() && calls <= MAX_CALLS && mutations <= 1 && old(answers) <= answers
      ensures Permitted(old(folder.Now()), folder.Now(), Command(plan, InstallState.Execute(hash)))
      ensures ReviewGrounded(old(folder.files), folder.files, old(answers), answers)
      ensures ExecutionGrounded(old(folder.executed), folder.executed, old(answers), answers)
      ensures r.InstallSubmitted? ==> |folder.executed| == |old(folder.executed)| + 1
      ensures forall target: Target ::
                Calm(Reply(target, Available, true)) && old(Created(target)) && ExecuteIntent !in old(folder.files)
                && ReviewFile in old(folder.files) && old(folder.files)[ReviewFile] == Full(ReviewIs(RecordOf(target)))
                && RecordOf(target).hash == hash && ExecuteAck !in old(folder.files)
                ==> r == InstallSubmitted
    {
      var executing := folder.Load(ExecuteIntent);
      if executing.Unreadable? { return Stopped; }
      if executing.Found? { r := Resume(); return; }
      var approved := Approved(hash);
      if approved.None? { return Stopped; }
      label reviewed:
      r := Submit(approved.value);
      Then(old(folder.Now()), old@reviewed(folder.Now()), folder.Now(), Command(plan, InstallState.Execute(hash)));
    }

    /** The intent first, then the one request. */
    method Submit(record: Record) returns (r: Outcome)
      requires Opened() && calls <= MAX_CALLS && mutations == 0 && ExecuteIntent !in folder.files
      requires Approves(folder.Now(), Command(plan, InstallState.Execute(record.hash)), record)
      modifies this`calls, this`mutations, folder
      ensures Opened() && calls <= MAX_CALLS && mutations <= 1
      ensures Permitted(old(folder.Now()), folder.Now(), Command(plan, InstallState.Execute(record.hash)))
      ensures folder.executed in {old(folder.executed), old(folder.executed) + [record.body.target.changeSet]}
      ensures r == InstallSubmitted ==> folder.executed == old(folder.executed) + [record.body.target.changeSet]
      ensures r in {Stopped, InstallSubmitted}
      ensures folder.calm && steady.Some? && old(calls) < MAX_CALLS && ExecuteAck !in old(folder.files) ==>
                r == InstallSubmitted
    {
      var kept := folder.Save(ExecuteIntent, ExecuteFor(record));
      if !kept { return Stopped; }
      var acked := SendExecute(record.body.target.changeSet);
      if !acked { return Stopped; }
      label sent:
      kept := folder.Save(ExecuteAck, AckEmpty);
      if !kept { return Stopped; }
      return InstallSubmitted;
    }

    /** The execute intent and the review record say the same thing, in full, about this plan. */
    ghost predicate Intends(record: Record)
      reads folder
    {
      && ReviewFile in folder.files && folder.files[ReviewFile] == Full(ReviewIs(record))
      && ExecuteIntent in folder.files && folder.files[ExecuteIntent] == Full(ExecuteFor(record))
      && record == RecordOf(record.body.target)
      && (CreateAck in folder.files ==> folder.files[CreateAck] == Full(AckIs(record.body.target)))
    }

    method ExecutionIntent() returns (r: Option<Record>)
      ensures r.Some? ==> Intends(r.value)
      ensures forall record: Record :: Intends(record) ==> r == Some(record)
    {
      var intent := folder.Load(ExecuteIntent);
      var review := folder.Load(ReviewFile);
      if intent.Unreadable? || !review.Found? || !review.content.ReviewIs? || review.content.record.body.plan != plan {
        return None;
      }
      var record := review.content.record;
      var same := Identifiers(record.body.target);
      if !same || record.hash != digest(record.body) || record.body.additions != additions
         || intent != Found(ExecuteFor(record)) {
        return None;
      }
      return Some(record);
    }

    /** Reads only: the outcome of whatever was sent before, as the last answers show it. */
    method Resume() returns (r: Outcome)
      requires Opened() && calls == 0
      modifies this`calls, this`answers, folder`files
      ensures Opened() && calls <= MAX_CALLS && old(answers) <= answers
              && Permitted(old(folder.Now()), folder.Now(), Command(plan, InstallState.Resume))
      ensures ReviewGrounded(old(folder.files), folder.files, old(answers), answers)
      ensures r.ReviewReady? ==> ExecuteIntent !in folder.files && ShowsRecord(r.hash, old(answers))
      ensures r.PreviewPending? ==> ExecuteIntent !in folder.files && LastShowed(old(answers), answers, InFlight)
      ensures r in {InstallPending, ConfigurationMatch} ==> exists record: Record :: Intends(record)
      ensures r.InstallPending? ==> LastShowed(old(answers), answers, InFlight)
      ensures r.ConfigurationMatch? ==>
                Passed(old(answers), answers, |answers| - |old(answers)|)
                && |answers| - |old(answers)| == if partition then 8 else 20
      ensures !r.PreviewSubmitted? && !r.InstallSubmitted?
      ensures forall target: Target, progress :: Calm(Reply(target, progress, true)) && old(Created(target)) ==>
                if ExecuteIntent in old(folder.files) then
                  forall record: Record :: old(Intends(record)) ==>
                    (progress == InFlight ==> r == InstallPending)
                    && (progress == Complete && old(CanConfigure(record.body.target.stack)) ==> r == ConfigurationMatch)
                    && (progress in {Available, Other} ==> r == Stopped)
                else
                  (progress == InFlight ==> r == PreviewPending)
                  && (progress == Available && old(CanReview(target)) ==> r == ReviewReady(RecordOf(target).hash))
                  && (progress in {Complete, Other} ==> r == Stopped)
    {
      var fit := Identity();
      if !fit { return Stopped; }
      var executing := folder.Load(ExecuteIntent);
      if executing.Unreadable? { return Stopped; }
      ghost var read := answers;
      if executing.Found? { r := Outstanding(); } else { r := PreviewState(); }
      SawEarlier(old(answers), read, answers);
    }

    /** No execute intent is there: the preview is pending, or is recorded and its hash shown. */
    method PreviewState() returns (r: Outcome)
      requires Opened() && calls <= MAX_CALLS && ExecuteIntent !in folder.files
      modifies this`calls, this`answers, folder`files
      ensures Opened() && calls <= MAX_CALLS && old(answers) <= answers
              && Permitted(old(folder.Now()), folder.Now(), Command(plan, InstallState.Resume))
      ensures ExecuteIntent !in folder.files && (r in {Stopped, PreviewPending} || r.ReviewReady?)
      ensures ReviewGrounded(old(folder.files), folder.files, old(answers), answers)
      ensures r.ReviewReady? ==> ShowsRecord(r.hash, old(answers))
      ensures r.PreviewPending? ==> LastShowed(old(answers), answers, InFlight)
      ensures forall target: Target, progress ::
                Calm(Reply(target, progress, true)) && old(Created(target)) && old(calls) + 4 <= MAX_CALLS ==>
                  (progress == InFlight ==> r == PreviewPending)
                  && (progress == Available && old(CanReview(target)) ==> r == ReviewReady(RecordOf(target).hash))
                  && (progress in {Complete, Other} ==> r == Stopped)
    {
      if !partition {
        var reply := ChangeSet();
        if reply.None? { return Stopped; }
        if reply.value.progress == InFlight { return PreviewPending; }
        if reply.value.progress != Available { return Stopped; }
      }
      ghost var read := answers;
      var reviewed := Review();
      SawEarlier(old(answers), read, answers);
      match reviewed
      case Failed => return Stopped;
      case NotYet => return PreviewPending;
      case Ready(record) => return ReviewReady(record.hash);
    }

    /** No other review record is on disk. */
    ghost predicate CanReview(target: Target)
      reads folder
    {
      ReviewFile in folder.files ==> folder.files[ReviewFile] == Full(ReviewIs(RecordOf(target)))
    }

    ghost predicate CanConfigure(stack: nat)
      reads folder
    {
      !partition && ConfigurationFile in folder.files ==> folder.files[ConfigurationFile] == Full(Configured(stack))
    }

    /** An execute intent is there: only what became of the stack is looked at. */
    method Outstanding() returns (r: Outcome)
      requires Opened() && calls <= MAX_CALLS
      modifies this`calls, this`answers, folder`files
      ensures Opened() && calls <= MAX_CALLS && old(answers) <= answers
              && Permitted(old(folder.Now()), folder.Now(), Command(plan, InstallState.Resume))
      ensures r in {Stopped, InstallPending, ConfigurationMatch}
      ensures forall n :: n in folder.files && n != ConfigurationFile ==> n in old(folder.files)
      ensures r in {InstallPending, ConfigurationMatch} ==> exists record: Record :: Intends(record)
      ensures r.InstallPending? ==> LastShowed(old(answers), answers, InFlight)
      ensures r.ConfigurationMatch? ==>
                Passed(old(answers), answers, |answers| - |old(answers)|)
                && |answers| - |old(answers)| == if partition then 7 else 18
      ensures forall record: Record, reply: Reply ::
                Calm(reply) && old(Intends(record)) && old(calls) + 18 <= MAX_CALLS ==>
                  (reply.progress == InFlight ==> r == InstallPending)
                  && (reply.progress == Complete && old(CanConfigure(record.body.target.stack)) ==>
                        r == ConfigurationMatch)
                  && (reply.progress in {Available, Other} ==> r == Stopped)
    {
      var record := ExecutionIntent();
      assert forall x: Record :: old(Intends(x)) ==> Intends(x);
      if record.None? { return Stopped; }
      var stack := Read();
      if stack.None? || !stack.value.fit { return Stopped; }
      if stack.value.progress == Complete {
        if partition { r := Configuration(record.value.body.target.stack); } else { r := ReadbackCommand(); }
        assert Intends(record.value);
        return;
      }
      if stack.value.progress != InFlight { return Stopped; }
      assert Intends(record.value);
      return InstallPending;
    }

    /** The installed configuration is read back; one of the two installers keeps a record of it. */
    method Configuration(stack: nat) returns (r: Outcome)
      requires Opened() && calls <= MAX_CALLS && ExecuteIntent in folder.files && folder.files[ExecuteIntent].Full?
      modifies this`calls, this`answers, folder`files
      ensures Opened() && calls <= MAX_CALLS && old(answers) <= answers
              && Permitted(old(folder.Now()), folder.Now(), Command(plan, InstallState.Readback))
      ensures r in {Stopped, ConfigurationMatch} && ExecuteIntent in folder.files && folder.files[ExecuteIntent].Full?
      ensures forall n :: n in folder.files && n != ConfigurationFile ==> n in old(folder.files)
      ensures r.ConfigurationMatch? ==>
                && |answers| == |old(answers)| + (if partition then 6 else 15)
                && Passed(old(answers), answers, if partition then 6 else 15)
                && (!partition ==> ConfigurationFile in folder.files
                                   && folder.files[ConfigurationFile] == Full(Configured(stack)))
      ensures steady.Some? && Calm(steady.value) && old(calls) + (if partition then 6 else 15) <= MAX_CALLS
              && old(CanConfigure(stack))
              ==> r == ConfigurationMatch
    {
      var fit := Checks(if partition then 6 else 15);
      if !fit { return Stopped; }
      if !partition {
        var kept := folder.Save(ConfigurationFile, Configured(stack));
        if !kept { return Stopped; }
      }
      return ConfigurationMatch;
    }

    method ReadbackCommand() returns (r: Outcome)
      requires Opened() && calls <= MAX_CALLS
      modifies this`calls, this`answers, folder`files
      ensures Opened() && calls <= MAX_CALLS && old(answers) <= answers
              && Permitted(old(folder.Now()), folder.Now(), Command(plan, InstallState.Readback))
      ensures r in {Stopped, ConfigurationMatch}
      ensures forall n :: n in folder.files && n != ConfigurationFile ==> n in old(folder.files)
      ensures r.ConfigurationMatch? ==>
                && (exists record: Record :: Intends(record))
                && |answers| == |old(answers)| + IdentityCalls() + (if partition then 6 else 15)
                && Passed(old(answers), answers, |answers| - |old(answers)|)
      ensures forall record: Record, reply: Reply ::
                Calm(reply) && old(Intends(record)) && old(CanConfigure(record.body.target.stack))
                && old(calls) + 17 <= MAX_CALLS
                ==> r == ConfigurationMatch
    {
      var fit := Identity();
      if !fit { return Stopped; }
      var record := ExecutionIntent();
      assert forall x: Record :: old(Intends(x)) ==> Intends(x);
      if record.None? { return Stopped; }
      r := Configuration(record.value.body.target.stack);
      assert Intends(record.value);
    }
  }

  /** The folder is bound to one plan; a folder bound to another one is left alone. */
  method Bind(folder: Folder<Plan, nat>, plan: Plan, digest: Body -> nat) returns (ok: bool)
    requires Lawful(digest, folder.Now())
    modifies folder`files
    ensures Lawful(digest, folder.Now()) && Grows(old(folder.Now()), folder.Now())
    ensures ok ==> PlanFile in folder.files && folder.files[PlanFile] == Full(PlanIs(plan))
    ensures forall n :: n in folder.files && n !in old(folder.files) ==> n in {PlanFile, TemplateFile}
  {
    if PlanFile !in folder.files {
      SavingKeepsLaw(digest, folder.Now(), PlanFile, Torn);
      SavingKeepsLaw(digest, folder.Now(), PlanFile, Full(PlanIs(plan)));
    }
    ok := folder.Save(PlanFile, PlanIs(plan));
    if !ok { return; }
    if TemplateFile !in folder.files {
      SavingKeepsLaw(digest, folder.Now(), TemplateFile, Torn);
      SavingKeepsLaw(digest, folder.Now(), TemplateFile, Full(TemplateIs));
    }
    ok := folder.Save(TemplateFile, TemplateIs);
  }

  method Perform(installer: Installer, action: Action) returns (r: Outcome)
    requires installer.Opened() && installer.calls == 0 && installer.mutations == 0
    modifies installer`calls, installer`mutations, installer`answers, installer.folder
    ensures installer.Opened() && installer.calls <= MAX_CALLS && installer.mutations <= 1
    ensures old(installer.answers) <= installer.answers
    ensures Permitted(old(installer.folder.Now()), installer.folder.Now(), Command(installer.plan, action))
    ensures installer.ReviewGrounded(old(installer.folder.files), installer.folder.files, old(installer.answers),
                                     installer.answers)
    ensures installer.ExecutionGrounded(old(installer.folder.executed), installer.folder.executed,
                                        old(installer.answers), installer.answers)
  {
    match action
    case Prepare => r := installer.Prepare();
    case Review => r := installer.ReviewCommand();
    case Execute(hash) => r := installer.Execute(hash);
    case Resume => r := installer.Resume();
    case Readback => r := installer.ReadbackCommand();
  }

  /** A review record that is new, and whatever is newly executed, is of a change set that was read as available and had
      passed its checks. */
  ghost predicate Grounded(plan: Plan, additions: nat, digest: Body -> nat, before: World, after: World,
                           read: seq<Reply>) {
    && (ReviewFile in after.files && ReviewFile !in before.files ==>
          exists target: Target ::
            Reply(target, Available, true) in read
            && var body := Body(plan, target, additions);
               after.files[ReviewFile] in {Torn, Full(ReviewIs(Record(body, digest(body))))})
    && (after.executed != before.executed ==>
          exists target: Target ::
            Reply(target, Available, true) in read && after.executed == before.executed + [target.changeSet])
  }

  lemma GroundedRun(installer: Installer, before: World, after: World, read: seq<Reply>)
    requires installer.ReviewGrounded(before.files, after.files, [], read)
    requires installer.ExecutionGrounded(before.executed, after.executed, [], read)
    ensures Grounded(installer.plan, installer.additions, installer.digest, before, after, read)
  {
    if ReviewFile in after.files && ReviewFile !in before.files {
      var target: Target :| SawAvailable([], read, target)
                            && after.files[ReviewFile] in {Torn, Full(ReviewIs(installer.RecordOf(target)))};
      assert Reply(target, Available, true) in read;
    }
    if after.executed != before.executed {
      var target: Target :| SawAvailable([], read, target) && after.executed == before.executed + [target.changeSet];
      assert Reply(target, Available, true) in read;
    }
  }

  /** One run of the program. */
  method RunCommand(folder: Folder<Plan, nat>, c: Command, partition: bool, additions: nat, digest: Body -> nat,
                    steady: Option<Reply>)
    returns (r: Outcome, ghost read: seq<Reply>)
    requires Lawful(digest, folder.Now())
    modifies folder
    ensures Lawful(digest, folder.Now()) && Permitted(old(folder.Now()), folder.Now(), c)
    ensures Grounded(c.plan, additions, digest, old(folder.Now()), folder.Now(), read)
    ensures r != Stopped ==> PlanFile in folder.files && folder.files[PlanFile] == Full(PlanIs(c.plan))
  {
    var ok := Bind(folder, c.plan, digest);
    if !ok { return Stopped, []; }
    var installer := new Installer(folder, c.plan, partition, additions, digest, steady);
    label ready:
    assert forall record :: Approves(folder.Now(), c, record) ==> Approves(old(folder.Now()), c, record);
    r := Perform(installer, c.action);
    read := installer.answers;
    Then(old(folder.Now()), old@ready(folder.Now()), folder.Now(), c);
    GroundedRun(installer, old@ready(folder.Now()), folder.Now(), read);
  }

  /** The record on disk, and what was executed, rest on what was read in the life of the folder. */
  ghost predicate AllGrounded(w: World, read: seq<Reply>) {
    && (ReviewFile in w.files && w.files[ReviewFile].Full? ==>
          w.files[ReviewFile].content.ReviewIs?
          && Reply(w.files[ReviewFile].content.record.body.target, Available, true) in read)
    && (w.executed != [] ==>
          exists target: Target :: Reply(target, Available, true) in read && w.executed == [target.changeSet])
  }

  lemma GroundedStays(plan: Plan, additions: nat, digest: Body -> nat, before: World, after: World, c: Command,
                      read: seq<Reply>, more: seq<Reply>)
    requires Permitted(before, after, c) && Lawful(digest, before) && Lawful(digest, after)
    requires AllGrounded(before, read) && Grounded(plan, additions, digest, before, after, more)
    ensures AllGrounded(after, read + more)
  {
    var all := read + more;
    if after.executed != before.executed {
      var target: Target :| Reply(target, Available, true) in more
                            && after.executed == before.executed + [target.changeSet];
      assert before.executed == [] && Reply(target, Available, true) in all;
    }
  }

  /** Any commands in any order on one folder, each run ending wherever it does, make a history; what is on record, and
      what was executed, was read as available at some time. */
  method Lifetime(folder: Folder<Plan, nat>, commands: seq<Command>, partition: bool, additions: nat,
                  digest: Body -> nat)
    returns (ghost worlds: seq<World>, ghost read: seq<Reply>)
    requires folder.Now() == EMPTY
    modifies folder
    ensures History(digest, worlds, commands) && worlds[|commands|] == folder.Now()
    ensures |folder.created| <= 1 && |folder.executed| <= 1
    ensures AllGrounded(folder.Now(), read)
  {
    worlds, read := [folder.Now()], [];
    for k := 0 to |commands|
      invariant |worlds| == k + 1 && worlds[k] == folder.Now() && Lawful(digest, folder.Now())
      invariant History(digest, worlds, commands[..k])
      invariant AllGrounded(folder.Now(), read)
    {
      ghost var before := folder.Now();
      var _, more := RunCommand(folder, commands[k], partition, additions, digest, None);
      ExtendHistory(digest, worlds, commands[..k], folder.Now(), commands[k]);
      GroundedStays(commands[k].plan, additions, digest, before, folder.Now(), commands[k], read, more);
      worlds, read := worlds + [folder.Now()], read + more;
      assert commands[..k + 1] == commands[..k] + [commands[k]];
    }
    assert commands[..|commands|] == commands;
  }
}
