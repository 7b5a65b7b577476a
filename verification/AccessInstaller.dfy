/** The access installer: preview and execution in one run, with a random change set name and token that only its saved
    intent remembers. */
module AccessInstaller {
  import opened Prelude
  import opened InstallState

  const MAX_CALLS: nat := 64
  const ROLES: nat := 2

  datatype Stack = NoStack | Stack(status: Status)
  datatype Status = Complete | InReview | Installing | OtherStatus
  datatype Preview = Preview(target: Target, pending: bool, fit: bool)
  datatype Outcome = Stopped | ReadbackPass | Pending | PreviewPending | Submitted

  /** A create request carries the change set's name and its token; an execute request the change set's identifier and
      the same token. */
  datatype Creation = Creation(name: nat, token: nat)
  datatype Execution = Execution(changeSet: nat, token: nat)

  type AccessWorld = FolderState<Creation, Execution>

  const UNTOUCHED: AccessWorld := FolderState(map[], [], [])

  /** The identifiers the cloud gives to change sets, by name. */
  type Cloud = nat -> nat

  /** What holds of the folder between any two steps. */
  ghost predicate AccessLawful(cloud: Cloud, w: AccessWorld) {
    && |w.created| <= 1 && |w.executed| <= 1
    && (w.created != [] ==>
          CreateIntent in w.files && w.files[CreateIntent].Full? && w.files[CreateIntent].content.PreviewFor?
          && Creation(w.files[CreateIntent].content.name, w.files[CreateIntent].content.token) == w.created[0])
    && (w.executed != [] ==>
          ExecuteIntent in w.files && w.files[ExecuteIntent].Full? && w.created != []
          && w.executed[0] == Execution(cloud(w.created[0].name), w.created[0].token))
    && (ExecuteIntent in w.files ==>
          && w.created != []
          && CreateIntent in w.files && w.files[CreateIntent].Full? && w.files[CreateIntent].content.PreviewFor?
          && (w.files[ExecuteIntent].Full? ==>
                w.files[ExecuteIntent].content.ExecuteTarget?
                && w.files[ExecuteIntent].content.boundTo == w.files[CreateIntent].content.source
                && w.files[ExecuteIntent].content.chosen.changeSet == cloud(w.created[0].name)))
    && (CreateIntent in w.files ==>
          && PlanFile in w.files && w.files[PlanFile].Full? && w.files[PlanFile].content.PlanIs?
          && (w.files[CreateIntent].Full? ==>
                w.files[CreateIntent].content.PreviewFor?
                && w.files[CreateIntent].content.source == w.files[PlanFile].content.plan))
  }

  /** All that one run may do: at most one of each mutation, and none of a kind whose intent is already there. */
  ghost predicate AccessRun(before: AccessWorld, after: AccessWorld) {
    && Grows(before, after)
    && |after.created| <= |before.created| + 1 && |after.executed| <= |before.executed| + 1
    && (CreateIntent in before.files || ExecuteIntent in before.files ==> after.created == before.created)
    && (ExecuteIntent in before.files ==> after.executed == before.executed)
  }

  /** Files that have no part in the protocol may come and go as a crash leaves them. */
  ghost predicate OnlyWrites(before: AccessWorld, after: AccessWorld) {
    && Grows(before, after) && after.created == before.created && after.executed == before.executed
    && forall n :: n in after.files && n !in before.files ==> n.BaselineFile? || n.DocumentFile? || n.TemplateFile?
  }

  lemma WritesKeepLaw(cloud: Cloud, a: AccessWorld, b: AccessWorld)
    requires AccessLawful(cloud, a) && OnlyWrites(a, b)
    ensures AccessLawful(cloud, b)
  {
    assert forall n :: n in {CreateIntent, ExecuteIntent, PlanFile} ==> (n in b.files <==> n in a.files);
  }

  /** This many more checks were made, and all of them passed. */
  ghost predicate Passed(before: seq<bool>, after: seq<bool>, n: nat) {
    before <= after && |after| >= |before| + n && forall k :: |before| <= k < |before| + n ==> after[k]
  }

  /** From a place on, the roles were seen, in their order, exactly as they are on record. */
  ghost predicate SeenAsRecorded(files: map<Name, File>, sights: seq<nat>, at: nat, n: nat) {
    at + n <= |sights|
    && forall k :: 0 <= k < n ==> BaselineFile(k) in files && files[BaselineFile(k)] == Full(Observed(sights[at + k]))
  }

  class Installation {
    const folder: Folder<Creation, Execution>
    const source: Plan
    const cloud: Cloud
    const roles: nat
    const policies: nat
    /** The state of the stack, when the remote side answers to everything and every answer passes. */
    const steady: Option<Stack>
    /** What the roles look like then. */
    const baseline: nat -> nat
    var calls: nat
    var mutations: nat
    /** The outcomes of all checks so far. */
    ghost var verdicts: seq<bool>
    /** What the roles looked like, each time one was looked at. */
    ghost var sights: seq<nat>
    /** The state of the stack, each time it was looked up. */
    ghost var stacks: seq<Stack>

    constructor (folder: Folder<Creation, Execution>, source: Plan, cloud: Cloud, roles: nat, policies: nat,
                 steady: Option<Stack>, baseline: nat -> nat)
      ensures this.folder == folder && this.source == source && this.cloud == cloud
      ensures this.roles == roles && this.policies == policies && this.steady == steady && this.baseline == baseline
      ensures calls == 0 && mutations == 0 && verdicts == [] && sights == [] && stacks == []
    {
      this.folder, this.source, this.cloud, this.roles, this.policies := folder, source, cloud, roles, policies;
      this.steady, this.baseline := steady, baseline;
      calls, mutations, verdicts, sights, stacks := 0, 0, [], [], [];
    }

    /** Nothing goes wrong: no crash, and every answer passes. */
    ghost predicate Calm() {
      folder.calm && steady.Some?
    }

    method Call() returns (ok: bool)
      requires calls <= MAX_CALLS
      modifies this`calls, this`verdicts
      ensures calls <= MAX_CALLS && verdicts == old(verdicts) + [ok] && (ok ==> calls == old(calls) + 1)
      ensures steady.Some? && old(calls) < MAX_CALLS ==> ok
    {
      if calls >= MAX_CALLS {
        verdicts := verdicts + [false];
        return false;
      }
      calls := calls + 1;
      ok := *;
      if steady.Some? { ok := true; }
      verdicts := verdicts + [ok];
    }

    method Checks(n: nat) returns (ok: bool)
      requires calls <= MAX_CALLS
      modifies this`calls, this`verdicts
      ensures calls <= MAX_CALLS && old(verdicts) <= verdicts
      ensures ok ==> Passed(old(verdicts), verdicts, n) && |verdicts| == |old(verdicts)| + n && calls == old(calls) + n
      ensures steady.Some? && old(calls) + n <= MAX_CALLS ==> ok
    {
      for k := 0 to n
        invariant calls == old(calls) + k <= MAX_CALLS
        invariant Passed(old(verdicts), verdicts, k) && |verdicts| == |old(verdicts)| + k
      {
        ok := Call();
        if !ok { return; }
      }
      return true;
    }

    /** Every role that is on record is as the remote side shows it. */
    ghost predicate Recorded(installing: bool)
      reads folder
    {
      forall k :: 0 <= k < ROLES ==>
        if BaselineFile(k) in folder.files then folder.files[BaselineFile(k)] == Full(Observed(baseline(k)))
        else !installing
    }

    method LookUp() returns (stack: Stack)
      modifies this`stacks
      ensures stacks == old(stacks) + [stack]
      ensures steady.Some? ==> stack == steady.value
    {
      stack := *;
      if steady.Some? { stack := steady.value; }
      stacks := stacks + [stack];
    }

    /** Looks at one role. */
    method See(k: nat) returns (observed: nat, policiesKept: bool)
      modifies this`sights
      ensures sights == old(sights) + [observed]
      ensures steady.Some? ==> observed == baseline(k) && policiesKept
    {
      observed, policiesKept := *, *;
      if steady.Some? { observed, policiesKept := baseline(k), true; }
      sights := sights + [observed];
    }

    /** One role as it is now must be as it was first seen; the first sight is saved. */
    method Baseline(k: nat, installing: bool) returns (ok: bool)
      requires calls <= MAX_CALLS
      modifies this`calls, this`verdicts, this`sights, folder`files
      ensures calls <= MAX_CALLS && Grows(old(folder.Now()), folder.Now()) && old(verdicts) <= verdicts
              && old(sights) <= sights
      ensures forall n :: n in folder.files && n !in old(folder.files) ==> n == BaselineFile(k)
      ensures ok ==>
                && Passed(old(verdicts), verdicts, 4) && |verdicts| == |old(verdicts)| + 4 && calls == old(calls) + 3
                && |sights| == |old(sights)| + 1 && BaselineFile(k) in folder.files
                && folder.files[BaselineFile(k)] == Full(Observed(sights[|old(sights)|]))
      ensures ok && installing ==> folder.files == old(folder.files)
      ensures Calm() && old(calls) + 3 <= MAX_CALLS
              && (if BaselineFile(k) in old(folder.files)
                  then old(folder.files)[BaselineFile(k)] == Full(Observed(baseline(k))) else !installing)
              ==> ok && folder.files[BaselineFile(k)] == Full(Observed(baseline(k)))
    {
      ok := Checks(3);
      if !ok { return; }
      var observed, policiesKept := See(k);
      var saved := folder.Load(BaselineFile(k));
      match saved {
        case Unreadable => return false;
        case Found(content) => if content != Observed(observed) { return false; }
        case Missing =>
          if installing { return false; }
          ok := folder.Save(BaselineFile(k), Observed(observed));
          if !ok { return; }
      }
      verdicts := verdicts + [policiesKept];
      return policiesKept;
    }

    /** Both roles as they are now must be as they were first seen. */
    method Baselines(installing: bool) returns (ok: bool)
      requires AccessLawful(cloud, folder.Now()) && calls <= MAX_CALLS
      modifies this`calls, this`verdicts, this`sights, folder`files
      ensures calls <= MAX_CALLS && AccessLawful(cloud, folder.Now()) && OnlyWrites(old(folder.Now()), folder.Now())
      ensures forall n :: n in folder.files && n !in old(folder.files) ==> n.BaselineFile?
      ensures old(verdicts) <= verdicts && old(sights) <= sights
      ensures ok ==>
                && Passed(old(verdicts), verdicts, 4 * ROLES) && |verdicts| == |old(verdicts)| + 4 * ROLES
                && calls == old(calls) + 3 * ROLES
                && |sights| == |old(sights)| + ROLES && SeenAsRecorded(folder.files, sights, |old(sights)|, ROLES)
      ensures ok && installing ==> folder.files == old(folder.files)
      ensures Calm() && old(calls) + 3 * ROLES <= MAX_CALLS && old(Recorded(installing)) ==>
                ok && Recorded(installing) && Recorded(false)
    {
      ok := true;
      for k := 0 to ROLES
        invariant calls == old(calls) + 3 * k <= MAX_CALLS && OnlyWrites(old(folder.Now()), folder.Now())
        invariant forall n :: n in folder.files && n !in old(folder.files) ==> n.BaselineFile? && n.role < k
        invariant Passed(old(verdicts), verdicts, 4 * k) && |verdicts| == |old(verdicts)| + 4 * k
        invariant old(sights) <= sights && |sights| == |old(sights)| + k
        invariant SeenAsRecorded(folder.files, sights, |old(sights)|, k)
        invariant installing ==> folder.files == old(folder.files)
        invariant Calm() && old(Recorded(installing)) ==> Recorded(installing) && Recorded(false)
      {
        ok := Baseline(k, installing);
        if !ok { break; }
      }
      WritesKeepLaw(cloud, old(folder.Now()), folder.Now());
    }

    /** No file stands in the way of the documents. */
    ghost predicate Writable()
      reads folder
    {
      (forall k :: 0 <= k < policies && DocumentFile(k) in folder.files ==>
         folder.files[DocumentFile(k)] == Full(Observed(k)))
      && (TemplateFile in folder.files ==> folder.files[TemplateFile] == Full(TemplateIs))
    }

    /** Every policy document is written out and checked before the preview. */
    method ValidateDocuments() returns (ok: bool)
      requires AccessLawful(cloud, folder.Now()) && calls <= MAX_CALLS
      modifies this`calls, this`verdicts, folder`files
      ensures calls <= MAX_CALLS && AccessLawful(cloud, folder.Now()) && OnlyWrites(old(folder.Now()), folder.Now())
      ensures forall n :: n in folder.files && n !in old(folder.files) ==> n.DocumentFile? || n.TemplateFile?
      ensures old(verdicts) <= verdicts
      ensures ok ==>
                && Passed(old(verdicts), verdicts, policies) && |verdicts| == |old(verdicts)| + policies
                && calls == old(calls) + policies
                && TemplateFile in folder.files && folder.files[TemplateFile] == Full(TemplateIs)
                && forall k :: 0 <= k < policies ==>
                     DocumentFile(k) in folder.files && folder.files[DocumentFile(k)] == Full(Observed(k))
      ensures Calm() && old(calls) + policies <= MAX_CALLS && old(Writable()) ==> ok
    {
      ok := true;
      for k := 0 to policies
        invariant calls == old(calls) + k <= MAX_CALLS && OnlyWrites(old(folder.Now()), folder.Now())
        invariant forall n :: n in folder.files && n !in old(folder.files) ==> n.DocumentFile?
        invariant Passed(old(verdicts), verdicts, k) && |verdicts| == |old(verdicts)| + k
        invariant forall j :: 0 <= j < k ==>
                    DocumentFile(j) in folder.files && folder.files[DocumentFile(j)] == Full(Observed(j))
        invariant Calm() && old(Writable()) ==> Writable()
        invariant ok
      {
        ok := folder.Save(DocumentFile(k), Observed(k));
        if !ok { break; }
        ok := Call();
        if !ok { break; }
      }
      if ok { ok := folder.Save(TemplateFile, TemplateIs); }
      WritesKeepLaw(cloud, old(folder.Now()), folder.Now());
    }

    /** A fresh name and a fresh token, their intent, and then the one create request that carries them. */
    method SubmitPreview() returns (asked: Option<Creation>)
      requires AccessLawful(cloud, folder.Now()) && calls <= MAX_CALLS && mutations == 0
      requires CreateIntent !in folder.files && ExecuteIntent !in folder.files
      requires PlanFile in folder.files && folder.files[PlanFile] == Full(PlanIs(source))
      modifies this`calls, this`mutations, folder`files, folder`created
      ensures calls <= MAX_CALLS && mutations <= 1 && AccessLawful(cloud, folder.Now())
              && AccessRun(old(folder.Now()), folder.Now())
      ensures folder.executed == old(folder.executed) && ExecuteIntent !in folder.files
              && Grows(old(folder.Now()), folder.Now())
      ensures forall n :: n in folder.files && n !in old(folder.files) ==> n == CreateIntent
      ensures asked.Some? ==>
                folder.created == [asked.value] && CreateIntent in folder.files && calls == old(calls) + 1
                && folder.files[CreateIntent] == Full(PreviewFor(source, asked.value.name, asked.value.token))
      ensures Calm() && old(calls) < MAX_CALLS ==> asked.Some?
    {
      var name: nat, token: nat :| 0 <= name && 0 <= token;
      var saved := folder.Save(CreateIntent, PreviewFor(source, name, token));
      if !saved || calls >= MAX_CALLS { return None; }
      calls, mutations := calls + 1, mutations + 1;
      var sent: bool, acked: bool := *, *;
      if steady.Some? { sent, acked := true, true; }
      if !sent { return None; }
      folder.created := folder.created + [Creation(name, token)];
      return if acked then Some(Creation(name, token)) else None;
    }

    /** The cloud describes a change set of this name, if one was asked for, under its own identifier. */
    method Describe(name: nat) returns (preview: Option<Preview>)
      requires calls <= MAX_CALLS
      modifies this`calls, this`verdicts
      ensures calls <= MAX_CALLS && old(verdicts) <= verdicts
      ensures preview.Some? ==>
                && preview.value.target.changeSet == cloud(name) && (exists c :: c in folder.created && c.name == name)
                && verdicts == old(verdicts) + [true, preview.value.fit && !preview.value.pending]
                && calls == old(calls) + 1
      ensures steady.Some? && old(calls) < MAX_CALLS && (exists c :: c in folder.created && c.name == name) ==>
                preview.Some? && preview.value.fit && !preview.value.pending
    {
      var ok := Call();
      if !ok || !exists k :: 0 <= k < |folder.created| && folder.created[k].name == name { return None; }
      var stack: nat :| 0 <= stack;
      var pending: bool, fit: bool := *, *;
      if steady.Some? { pending, fit := false, true; }
      verdicts := verdicts + [fit && !pending];
      return Some(Preview(Target(cloud(name), stack), pending, fit));
    }

    /** The execute intent names the change set that was just read back, and then the one execute request goes out with
        the token of the preview. */
    method SubmitExecution(target: Target, token: nat) returns (ok: bool)
      requires AccessLawful(cloud, folder.Now()) && calls <= MAX_CALLS && mutations <= 1
      requires ExecuteIntent !in folder.files
      requires folder.created != [] && target.changeSet == cloud(folder.created[0].name)
      requires folder.created[0].token == token
      requires CreateIntent in folder.files && folder.files[CreateIntent].Full?
               && folder.files[CreateIntent].content.PreviewFor?
      requires folder.files[CreateIntent].content.source == source
      modifies this`calls, this`mutations, folder`files, folder`executed
      ensures calls <= MAX_CALLS && mutations <= old(mutations) + 1 && AccessLawful(cloud, folder.Now())
      ensures Grows(old(folder.Now()), folder.Now()) && |folder.executed| <= |old(folder.executed)| + 1
      ensures ok ==> folder.executed == [Execution(target.changeSet, token)]
      ensures folder.created == old(folder.created)
      ensures Calm() && old(calls) < MAX_CALLS ==> ok
    {
      var saved := folder.Save(ExecuteIntent, ExecuteTarget(source, target));
      if !saved || calls >= MAX_CALLS { return false; }
      calls, mutations := calls + 1, mutations + 1;
      var sent: bool, acked: bool := *, *;
      if steady.Some? { sent, acked := true, true; }
      if !sent { return false; }
      folder.executed := folder.executed + [Execution(target.changeSet, token)];
      return acked;
    }

    /** The checks between the first look at the stack and the create request. */
    function PreviewChecks(): nat { 4 * ROLES + 2 * roles + policies }

    function PreviewCalls(): nat { 3 * ROLES + 2 * roles + policies + 1 }

    /** Everything from the first look at the stack to the preview token in hand. */
    method PreviewIntent(stack: Stack) returns (ready: bool)
      requires AccessLawful(cloud, folder.Now()) && calls <= MAX_CALLS && mutations == 0
      requires ExecuteIntent !in folder.files
      requires PlanFile in folder.files && folder.files[PlanFile] == Full(PlanIs(source))
      modifies this`calls, this`mutations, this`verdicts, this`sights, folder`files, folder`created
      ensures calls <= MAX_CALLS && mutations <= 1 && AccessLawful(cloud, folder.Now())
              && AccessRun(old(folder.Now()), folder.Now())
      ensures folder.executed == old(folder.executed) && ExecuteIntent !in folder.files
      ensures old(verdicts) <= verdicts && old(sights) <= sights
      ensures folder.created != old(folder.created) ==>
                stack == NoStack && Passed(old(verdicts), verdicts, PreviewChecks())
                && SeenAsRecorded(folder.files, sights, |old(sights)|, ROLES)
      ensures ready ==>
                && CreateIntent in folder.files && folder.files[CreateIntent].Full?
                && folder.files[CreateIntent].content.PreviewFor?
                && folder.files[CreateIntent].content.source == source
                && Passed(old(verdicts), verdicts, |verdicts| - |old(verdicts)|)
      ensures CreateIntent in old(folder.files) ==>
                mutations == 0 && calls == old(calls) && folder.files == old(folder.files)
                && folder.created == old(folder.created) && (ready <==> folder.files[CreateIntent].Full?)
      ensures CreateIntent !in old(folder.files) && Calm() && stack == NoStack && old(Recorded(false))
              && old(Writable())
              && old(calls) + PreviewCalls() <= MAX_CALLS
              ==> ready && folder.created != [] && Recorded(false) && calls == old(calls) + PreviewCalls()
    {
      var intent := folder.Load(CreateIntent);
      match intent
      case Unreadable => return false;
      case Found(_) => return true;
      case Missing =>
        if stack != NoStack { return false; }
        var fit := Baselines(false);
        if !fit { return false; }
        fit := Checks(2 * roles);
        if !fit { return false; }
        fit := ValidateDocuments();
        if !fit { return false; }
        var asked := SubmitPreview();
        return asked.Some?;
    }

    /** An installed stack is read back and compared; nothing is sent. */
    method Verify() returns (r: Outcome)
      requires AccessLawful(cloud, folder.Now()) && calls <= MAX_CALLS
      modifies this`calls, this`verdicts, this`sights, folder`files
      ensures calls <= MAX_CALLS && AccessLawful(cloud, folder.Now()) && OnlyWrites(old(folder.Now()), folder.Now())
      ensures r in {Stopped, ReadbackPass} && old(verdicts) <= verdicts && old(sights) <= sights
      ensures r == ReadbackPass ==>
                folder.files == old(folder.files) && Passed(old(verdicts), verdicts, 3 + 4 * ROLES + 6 * roles)
                && SeenAsRecorded(folder.files, sights, |old(sights)|, ROLES)
      ensures Calm() && old(Recorded(true)) && old(calls) + 3 + 3 * ROLES + 6 * roles <= MAX_CALLS ==> r == ReadbackPass
    {
      var fit := Checks(1);
      if !fit { return Stopped; }
      fit := Baselines(true);
      if !fit { return Stopped; }
      fit := Checks(2 + 6 * roles);
      return if fit then ReadbackPass else Stopped;
    }

    /** With the preview intent in hand: read the preview, check it, look at the roles again, and execute it. */
    method ExecutePreview() returns (r: Outcome)
      requires AccessLawful(cloud, folder.Now()) && calls <= MAX_CALLS && mutations <= 1
      requires ExecuteIntent !in folder.files
      requires CreateIntent in folder.files && folder.files[CreateIntent].Full?
               && folder.files[CreateIntent].content.PreviewFor?
      requires folder.files[CreateIntent].content.source == source
      modifies this`calls, this`mutations, this`verdicts, this`sights, folder`files, folder`executed
      ensures calls <= MAX_CALLS && mutations <= old(mutations) + 1 && AccessLawful(cloud, folder.Now())
      ensures Grows(old(folder.Now()), folder.Now()) && folder.created == old(folder.created)
      ensures |folder.executed| <= |old(folder.executed)| + 1 && old(verdicts) <= verdicts && old(sights) <= sights
      ensures folder.executed != old(folder.executed) ==>
                Passed(old(verdicts), verdicts, 3 + 4 * ROLES) && |sights| == |old(sights)| + ROLES
                && SeenAsRecorded(folder.files, sights, |old(sights)|, ROLES)
      ensures r == Submitted ==> |folder.executed| == 1
      ensures r in {Stopped, PreviewPending, Submitted}
      ensures Calm() && old(Recorded(false)) && folder.created != [] && old(calls) + 3 + 3 * ROLES <= MAX_CALLS ==>
                r == Submitted
    {
      var intent := folder.files[CreateIntent].content;
      assert folder.created != [] ==> folder.created[0] in folder.created && folder.created[0].name == intent.name;
      var preview := Describe(intent.name);
      if preview.None? { return Stopped; }
      if preview.value.pending { return PreviewPending; }
      if !preview.value.fit { return Stopped; }
      var fit := Call();
      if !fit { return Stopped; }
      fit := Baselines(false);
      if !fit { return Stopped; }
      var acked := SubmitExecution(preview.value.target, intent.token);
      return if acked then Submitted else Stopped;
    }

    /** The run once the folder is bound to its source. */
    method Proceed(stack: Stack) returns (r: Outcome)
      requires AccessLawful(cloud, folder.Now()) && calls <= MAX_CALLS && mutations == 0
      requires PlanFile in folder.files && folder.files[PlanFile] == Full(PlanIs(source))
      modifies this`calls, this`mutations, this`verdicts, this`sights, folder
      ensures calls <= MAX_CALLS && mutations <= 2 && AccessLawful(cloud, folder.Now())
              && AccessRun(old(folder.Now()), folder.Now())
      ensures ExecuteIntent in old(folder.files) ==> mutations == 0
      ensures CreateIntent in old(folder.files) ==> mutations <= 1
      ensures r == Submitted ==> |folder.executed| == 1
      ensures old(verdicts) <= verdicts && old(sights) <= sights
      ensures folder.created != old(folder.created) ==>
                stack == NoStack && Passed(old(verdicts), verdicts, PreviewChecks())
                && SeenAsRecorded(folder.files, sights, |old(sights)|, ROLES)
      ensures folder.executed != old(folder.executed) ==>
                Passed(old(verdicts), verdicts, 3 + 4 * ROLES) && stack != Stack(Complete)
                && |sights| >= |old(sights)| + ROLES && SeenAsRecorded(folder.files, sights, |sights| - ROLES, ROLES)
      ensures r == ReadbackPass ==>
                stack == Stack(Complete) && Passed(old(verdicts), verdicts, 3 + 4 * ROLES + 6 * roles)
                && SeenAsRecorded(folder.files, sights, |old(sights)|, ROLES)
      ensures r == Pending <==>
                stack == Stack(Installing) && ExecuteIntent in old(folder.files)
                && old(folder.files)[ExecuteIntent].Full?
      ensures Calm() && stack == NoStack && ExecuteIntent !in old(folder.files) && CreateIntent !in old(folder.files)
              && old(Recorded(false)) && old(Writable())
              && old(calls) + PreviewCalls() + 3 + 3 * ROLES <= MAX_CALLS
              ==> r == Submitted
      ensures Calm() && stack != Stack(Complete) && ExecuteIntent !in old(folder.files) && old(folder.created) != []
              && old(Recorded(false)) && old(calls) + 3 + 3 * ROLES <= MAX_CALLS
              ==> r == Submitted
      ensures Calm() && stack == Stack(Complete) && old(Recorded(true))
              && old(calls) + 3 + 3 * ROLES + 6 * roles <= MAX_CALLS
              ==> r == ReadbackPass
    {
      if stack == Stack(Complete) { r := Verify(); return; }
      var executing := folder.Load(ExecuteIntent);
      if executing.Unreadable? { return Stopped; }
      if executing.Found? { return if stack == Stack(Installing) then Pending else Stopped; }
      var ready := PreviewIntent(stack);
      if !ready { return Stopped; }
      r := ExecutePreview();
    }

    /** The account is checked, the folder bound to its source, and the stack looked up. */
    method Bind() returns (stack: Option<Stack>)
      requires AccessLawful(cloud, folder.Now()) && calls == 0
      modifies this`calls, this`verdicts, this`stacks, folder`files
      ensures calls <= MAX_CALLS && AccessLawful(cloud, folder.Now()) && Grows(old(folder.Now()), folder.Now())
      ensures forall n :: n in folder.files && n !in old(folder.files) ==> n == PlanFile
      ensures old(verdicts) <= verdicts
      ensures stacks == if stack.Some? then old(stacks) + [stack.value] else old(stacks)
      ensures stack.Some? ==>
                && PlanFile in folder.files && folder.files[PlanFile] == Full(PlanIs(source))
                && Passed(old(verdicts), verdicts, 2) && |verdicts| == |old(verdicts)| + 2 && calls == 2
      ensures Calm() && (PlanFile in old(folder.files) ==> old(folder.files)[PlanFile] == Full(PlanIs(source))) ==>
                stack == steady
    {
      var fit := Call();
      if !fit { return None; }
      var bound := folder.Save(PlanFile, PlanIs(source));
      if !bound { return None; }
      fit := Call();
      if !fit { return None; }
      var shown := LookUp();
      return Some(shown);
    }

    method Run() returns (r: Outcome)
      requires AccessLawful(cloud, folder.Now()) && calls == 0 && mutations == 0
      modifies this`calls, this`mutations, this`verdicts, this`sights, this`stacks, folder
      ensures calls <= MAX_CALLS && mutations <= 2 && AccessLawful(cloud, folder.Now())
              && AccessRun(old(folder.Now()), folder.Now())
      ensures ExecuteIntent in old(folder.files) ==> mutations == 0
      ensures CreateIntent in old(folder.files) ==> mutations <= 1
      ensures r == Submitted ==> |folder.executed| == 1
      ensures old(stacks) <= stacks && |stacks| <= |old(stacks)| + 1
      ensures folder.created != old(folder.created) ==>
                stacks == old(stacks) + [NoStack] && Passed(old(verdicts), verdicts, 2 + PreviewChecks())
                && SeenAsRecorded(folder.files, sights, |old(sights)|, ROLES)
      ensures folder.executed != old(folder.executed) ==>
                old(stacks) < stacks && stacks[|old(stacks)|] != Stack(Complete)
                && Passed(old(verdicts), verdicts, 5 + 4 * ROLES)
                && |sights| >= |old(sights)| + ROLES && SeenAsRecorded(folder.files, sights, |sights| - ROLES, ROLES)
      ensures r == ReadbackPass ==>
                stacks == old(stacks) + [Stack(Complete)]
                && Passed(old(verdicts), verdicts, 5 + 4 * ROLES + 6 * roles)
                && SeenAsRecorded(folder.files, sights, |old(sights)|, ROLES)
      ensures r == Pending ==> stacks == old(stacks) + [Stack(Installing)] && ExecuteIntent in old(folder.files)
      ensures Calm() && steady == Some(Stack(Complete)) && old(Recorded(true)) && 5 + 3 * ROLES + 6 * roles <= MAX_CALLS
              && (PlanFile in old(folder.files) ==> old(folder.files)[PlanFile] == Full(PlanIs(source)))
              ==> r == ReadbackPass
      ensures Calm() && steady == Some(NoStack) && (forall n :: n in old(folder.files) ==> n == PlanFile)
              && (PlanFile in old(folder.files) ==> old(folder.files)[PlanFile] == Full(PlanIs(source)))
              && 5 + PreviewCalls() + 3 * ROLES <= MAX_CALLS
              ==> r == Submitted
    {
      var stack := Bind();
      if stack.None? { return Stopped; }
      r := Proceed(stack.value);
    }
  }

  // ----- any number of runs

  ghost predicate AccessHistory(cloud: Cloud, worlds: seq<AccessWorld>) {
    && |worlds| >= 1 && worlds[0] == UNTOUCHED
    && forall k :: 0 < k < |worlds| ==> AccessLawful(cloud, worlds[k]) && AccessRun(worlds[k - 1], worlds[k])
  }

  method Lifetime(folder: Folder<Creation, Execution>, sources: seq<Plan>, cloud: Cloud, roles: nat, policies: nat)
    returns (ghost worlds: seq<AccessWorld>)
    requires folder.Now() == UNTOUCHED
    modifies folder
    ensures AccessHistory(cloud, worlds) && worlds[|worlds| - 1] == folder.Now() && |worlds| == |sources| + 1
    ensures |folder.created| <= 1 && |folder.executed| <= 1
  {
    worlds := [folder.Now()];
    for k := 0 to |sources|
      invariant AccessHistory(cloud, worlds) && AccessLawful(cloud, folder.Now())
      invariant |worlds| == k + 1 && worlds[k] == folder.Now()
    {
      var installation := new Installation(folder, sources[k], cloud, roles, policies, None, k => k);
      var _ := installation.Run();
      worlds := worlds + [folder.Now()];
    }
  }

  /** Over any number of runs: at most one create and one execute, and none after its intent. What is executed is the
      change set that was created under the name of the one preview intent, with that intent's token and from the same
      source. */
  lemma {:induction false} IntentsBind(cloud: Cloud, worlds: seq<AccessWorld>, i: nat, j: nat)
    requires AccessHistory(cloud, worlds) && i <= j < |worlds|
    ensures |worlds[j].created| <= 1 && |worlds[j].executed| <= 1
    ensures CreateIntent in worlds[i].files || ExecuteIntent in worlds[i].files ==>
              worlds[j].created == worlds[i].created
    ensures ExecuteIntent in worlds[i].files ==> worlds[j].executed == worlds[i].executed
    ensures Grows(worlds[i], worlds[j])
    ensures worlds[j].executed != [] ==>
              exists source, name, token, target: Target ::
                && worlds[j].created == [Creation(name, token)]
                && worlds[j].executed == [Execution(cloud(name), token)] && target.changeSet == cloud(name)
                && CreateIntent in worlds[j].files
                && worlds[j].files[CreateIntent] == Full(PreviewFor(source, name, token))
                && ExecuteIntent in worlds[j].files
                && worlds[j].files[ExecuteIntent] == Full(ExecuteTarget(source, target))
    decreases j
  {
    if i < j { IntentsBind(cloud, worlds, i, j - 1); }
    if worlds[j].executed != [] {
      var intent := worlds[j].files[CreateIntent].content;
      var target := worlds[j].files[ExecuteIntent].content.chosen;
      assert worlds[j].created == [Creation(intent.name, intent.token)];
      assert worlds[j].executed == [Execution(cloud(intent.name), intent.token)];
      assert worlds[j].files[CreateIntent] == Full(PreviewFor(intent.source, intent.name, intent.token));
      assert worlds[j].files[ExecuteIntent] == Full(ExecuteTarget(intent.source, target));
    }
  }
}
