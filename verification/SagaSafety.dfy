/** Over every interleaving, with handlers failing or stopping anywhere: no stored object is lost track of, and no
    file version loses its object, unless one of three hazards touches that object on the way. */
module SagaSafety {
  import opened Amounts
  import opened QuotaScripts
  import opened Backend
  import opened UsageSums
  import opened Shapes
  import opened QuotaSafety
  import opened QuotaRuns
  import opened QuotaWitness
  import opened FileWitness

  /** Some row still leads to the object: a version, a pending upload, or a deletion that is not processed. */
  predicate Referenced(s: State, k: nat) {
    k in s.files || k in s.pending || (k in s.outbox && !s.outbox[k].stage.Processed?)
  }

  /** What holds of one object key. */
  predicate KeyFits(s: State, k: nat) {
    && (k in s.objects ==> Referenced(s, k) && k in s.jobs && !s.jobs[k].Early() && !s.jobs[k].phase.Staged?)
    && (k in s.files ==> k in s.objects)
    && (k in s.outbox && !s.outbox[k].stage.Queued? ==> k !in s.objects)
    && (k in s.jobs && s.jobs[k].phase.Staged? ==> k in s.pending)
    && (k in s.jobs && s.jobs[k].phase.Stored? ==> k in s.pending && k in s.objects)
    && (k in s.jobs && s.jobs[k].phase.Failed? ==> k !in s.landed)
    && (k in s.sweeping ==> k in s.jobs && !s.jobs[k].Live() && k !in s.landed)
    && (k in s.sweeping && s.sweeping[k] ==> k !in s.objects)
  }

  /** The three hazards for an object: a commit whose success is not reported, a sweep that fetches a live request's
      pending row, and the deletion of a user with a pending upload. */
  predicate Taints(s: State, step: Step, k: nat) {
    match step
    case Land(j, reported) => j == k && !reported
    case Fetch(j) => j == k && j in s.jobs && s.jobs[j].Live()
    case DeleteUser(u) => k in s.pending && s.pending[k] == u
    case _ => false
  }

  lemma EmptyFits(limits: map<UserId, Amount>, k: nat)
    ensures KeyFits(Empty(limits), k)
  {
  }

  lemma UploadKeepsKey(s: State, step: Step, k: nat)
    requires Shape(s) && Enabled(s, step) && KeyFits(s, k)
    requires step.Arrive? || step.StageUpload? || step.StoreObject?
    ensures KeyFits(Apply(s, step), k)
  {
    hide HoldsFit, ReadersFit, PendingFits;
  }

  lemma EndingKeepsKey(s: State, step: Step, k: nat)
    requires Shape(s) && Enabled(s, step) && KeyFits(s, k)
    requires step.Fail? || step.Crash? || step.DeleteOwnObject?
    ensures KeyFits(Apply(s, step), k)
  {
    hide HoldsFit, ReadersFit, PendingFits;
  }

  lemma ReserveKeepsKey(s: State, r: nat, j: nat, at: int, k: nat)
    requires Shape(s) && Enabled(s, TryReserve(r, j, at)) && KeyFits(s, k)
    ensures KeyFits(DoReserve(s, r, j, at), k)
  {
    hide HoldsFit, ReadersFit, RowsFit, Ask;
  }

  lemma LandKeepsKey(s: State, j: nat, reported: bool, k: nat)
    requires Shape(s) && CanLand(s, j) && KeyFits(s, k) && !Taints(s, Land(j, reported), k)
    ensures KeyFits(DoLand(s, j, reported), k)
  {
    hide HoldsFit, ReadersFit, StrayAll, Stray;
  }

  lemma QueuedHasNoVersion(s: State, k: nat)
    requires Shape(s)
    ensures k in s.outbox ==> k !in s.files
  {
    hide HoldsFit, ReadersFit, PendingFits, PhasesFit, DoublesFit;
  }

  lemma CascadeKeepsKey(s: State, id: nat, k: nat)
    requires Shape(s) && id in s.secrets && KeyFits(s, k)
    ensures KeyFits(Cascade(s, id), k)
  {
    hide Shape, Enqueued, Remaining, Job.Live, Job.Early;
    StaysWithItsSecret(s.files, id, k);
    QueuedHasNoVersion(s, k);
  }

  lemma StaysWithItsSecret(files: map<nat, FileRow>, id: nat, k: nat)
    ensures k in Remaining(files, id) <==> k in files && files[k].secret != id
  {
  }

  lemma DisownKeepsKey(s: State, u: UserId, k: nat)
    requires Shape(s) && KeyFits(s, k) && !Taints(s, DeleteUser(u), k)
    ensures KeyFits(Disown(s, u), k)
  {
    hide Shape, WithoutOwner, WithoutPayer;
  }

  lemma OutboxKeepsKey(s: State, step: Step, k: nat)
    requires Shape(s) && Enabled(s, step) && KeyFits(s, k)
    requires step.EraseQueued? || step.MarkProcessed?
    ensures KeyFits(Apply(s, step), k)
  {
    hide HoldsFit, ReadersFit, PendingFits, DoublesFit;
  }

  lemma SweepKeepsKey(s: State, step: Step, k: nat)
    requires Shape(s) && Enabled(s, step) && KeyFits(s, k) && !Taints(s, step, k)
    requires step.Fetch? || step.EraseFetched? || step.DropPending?
    ensures KeyFits(Apply(s, step), k)
  {
    hide HoldsFit, ReadersFit, PhasesFit;
  }

  lemma QuotaKeepsKey(s: State, step: Step, k: nat)
    requires Enabled(s, step) && KeyFits(s, k)
    requires step.StartRead? || step.Read? || step.DoReconcile? || step.DoRelease? || step.DoCommit?
    ensures KeyFits(Apply(s, step), k)
  {
  }

  lemma StepKeepsKey(s: State, step: Step, k: nat)
    requires Shape(s) && Enabled(s, step) && KeyFits(s, k) && !Taints(s, step, k)
    ensures KeyFits(Apply(s, step), k)
  {
    hide Shape, KeyFits;
    match step
    case TryReserve(r, j, at) => ReserveKeepsKey(s, r, j, at, k);
    case Land(j, reported) => LandKeepsKey(s, j, reported, k);
    case StartRead(_, _) => QuotaKeepsKey(s, step, k);
    case Read(_) => QuotaKeepsKey(s, step, k);
    case DoReconcile(_) => QuotaKeepsKey(s, step, k);
    case DoRelease(_) => QuotaKeepsKey(s, step, k);
    case DoCommit(_) => QuotaKeepsKey(s, step, k);
    case Arrive(_, _, _, _) => UploadKeepsKey(s, step, k);
    case StageUpload(_) => UploadKeepsKey(s, step, k);
    case StoreObject(_) => UploadKeepsKey(s, step, k);
    case Fail(_) => EndingKeepsKey(s, step, k);
    case Crash(_) => EndingKeepsKey(s, step, k);
    case DeleteOwnObject(_) => EndingKeepsKey(s, step, k);
    case Fetch(_) => SweepKeepsKey(s, step, k);
    case EraseFetched(_) => SweepKeepsKey(s, step, k);
    case DropPending(_) => SweepKeepsKey(s, step, k);
    case DeleteSecret(id) => CascadeKeepsKey(s, id, k);
    case DeleteUser(u) => DisownKeepsKey(s, u, k);
    case _ => OutboxKeepsKey(s, step, k);
  }

  /** No step of a run is a hazard for the object. */
  ghost predicate Untouched(s: State, steps: seq<Step>, k: nat)
    requires Legal(s, steps)
    decreases |steps|
  {
    steps != [] ==> !Taints(s, steps[0], k) && Untouched(Apply(s, steps[0]), steps[1..], k)
  }

  /** After every run without a hazard for an object, the object is referenced if it is stored, and it is stored if it
      belongs to a version; the runs may be hazardous for any other object. */
  lemma {:induction false} ObjectsOverRuns(s: State, steps: seq<Step>, k: nat)
    requires Shape(s) && KeyFits(s, k) && Legal(s, steps) && Untouched(s, steps, k)
    ensures KeyFits(Run(s, steps), k)
    decreases |steps|
  {
    hide Shape, KeyFits, Taints, Enabled, Apply;
    if steps != [] {
      StepKeepsKey(s, steps[0], k);
      StepKeepsShape(s, steps[0]);
      ObjectsOverRuns(Apply(s, steps[0]), steps[1..], k);
    }
  }

  lemma ObjectsFromEmpty(limits: map<UserId, Amount>, steps: seq<Step>, k: nat)
    requires forall u :: u in limits ==> Zero().Leq(limits[u])
    requires Legal(Empty(limits), steps) && Untouched(Empty(limits), steps, k)
    ensures
      var s := Run(Empty(limits), steps);
      && (k in s.objects ==> Referenced(s, k))
      && (k in s.files ==> k in s.objects)
  {
    hide Shape, Legal, Untouched, Run;
    EmptyIsGood(limits);
    EmptyFits(limits, k);
    ObjectsOverRuns(Empty(limits), steps, k);
  }

  // ---------- Each hazard does break the property ----------

  /** When a commit succeeds but is reported as failed, the compensation deletes the object of a committed version. */
  lemma UnreportedCommitLosesObject(s: State, j: nat)
    requires Shape(s) && CanLand(s, j) && s.jobs[j].kind.HasFile()
    ensures
      var steps := [Land(j, false), DeleteOwnObject(j)];
      Legal(s, steps) && j in Run(s, steps).files && j !in Run(s, steps).objects
  {
    hide HoldsFit, PhasesFit, RowsFit, PendingFits, ReadersFit, StrayAll, Stray;
    var s1 := DoLand(s, j, false);
    TwoSteps(s, Land(j, false), DeleteOwnObject(j));
  }

  lemma TwoSteps(s: State, first: Step, second: Step)
    requires Enabled(s, first) && Enabled(Apply(s, first), second)
    ensures Leads(s, [first, second], Apply(Apply(s, first), second))
  {
    hide Enabled, Apply, Leads;
    LeadsNowhere(s);
    LeadsOn(s, [], s, first);
    LeadsOn(s, [] + [first], Apply(s, first), second);
    assert [] + [first] + [second] == [first, second];
  }

  lemma ThreeSteps(s: State, first: Step, second: Step, third: Step)
    requires Enabled(s, first) && Enabled(Apply(s, first), second) && Enabled(Apply(Apply(s, first), second), third)
    ensures Leads(s, [first, second, third], Apply(Apply(Apply(s, first), second), third))
  {
    hide Enabled, Apply, Leads;
    TwoSteps(s, first, second);
    LeadsOn(s, [first, second], Apply(Apply(s, first), second), third);
    assert [first, second] + [third] == [first, second, third];
  }

  /** A sweep that fetches the pending row of a request which then commits deletes the object of a committed version. */
  lemma SweepingLiveRequestLosesObject(s: State, j: nat)
    requires CanLand(s, j) && j in s.pending && s.jobs[j].kind.HasFile()
    ensures
      var steps := [Fetch(j), EraseFetched(j), Land(j, true)];
      Legal(s, steps) && j in Run(s, steps).files && j !in Run(s, steps).objects
  {
    hide Legal, Run, Enabled, Apply, Payer;
    SweptUnderHandler(s, j);
    var s2 := Apply(Apply(s, Fetch(j)), EraseFetched(j));
    LandsWithoutObject(s2, j);
    ThreeSteps(s, Fetch(j), EraseFetched(j), Land(j, true));
  }

  lemma SweptUnderHandler(s: State, j: nat)
    requires j in s.pending && j in s.jobs
    ensures Enabled(s, Fetch(j)) && Enabled(Apply(s, Fetch(j)), EraseFetched(j))
    ensures
      var s2 := Apply(Apply(s, Fetch(j)), EraseFetched(j));
      s2.jobs == s.jobs && s2.secrets == s.secrets && s2.gone == s.gone && j !in s2.objects
  {
  }

  lemma LandsWithoutObject(s: State, j: nat)
    requires CanLand(s, j) && s.jobs[j].kind.HasFile() && j !in s.objects
    ensures Enabled(s, Land(j, true)) && j in Apply(s, Land(j, true)).files && j !in Apply(s, Land(j, true)).objects
  {
    hide StrayAll, Stray, LandedSecrets, Payer;
  }

  /** Deleting a user whose request has uploaded but not committed leaves an object that no row leads to. */
  lemma DeletingUploaderOrphansObject(s: State, j: nat)
    requires Shape(s) && j in s.objects && j in s.pending && s.pending[j] !in s.gone && s.pending[j] == s.jobs[j].user
    ensures
      var s' := Apply(s, DeleteUser(s.pending[j]));
      j in s'.objects && !Referenced(s', j) && !CanLand(s', j)
  {
    hide HoldsFit, ReadersFit;
  }

  /** From the empty backend, the first upload is stored; either hazard then leaves a version without an object. */
  lemma VersionsCanLoseObjects()
    ensures Leads(Start(), FirstStored(), FileStored())
    ensures
      var steps := FirstStored() + [Land(0, false), DeleteOwnObject(0)];
      Legal(Start(), steps) && 0 in Run(Start(), steps).files && 0 !in Run(Start(), steps).objects
    ensures
      var steps := FirstStored() + [Fetch(0), EraseFetched(0), Land(0, true)];
      Legal(Start(), steps) && 0 in Run(Start(), steps).files && 0 !in Run(Start(), steps).objects
  {
    hide Legal, Run, Shape, FirstStored, FileStored;
    StoredIsReady();
    UnreportedCommitLosesObject(FileStored(), 0);
    RunJoin(Start(), FirstStored(), [Land(0, false), DeleteOwnObject(0)]);
    SweepingLiveRequestLosesObject(FileStored(), 0);
    RunJoin(Start(), FirstStored(), [Fetch(0), EraseFetched(0), Land(0, true)]);
  }

  /** And deleting the uploader at that point leaves an object that nothing leads to. */
  lemma ObjectsCanBeOrphaned()
    ensures
      var steps := FirstStored() + [DeleteUser(0)];
      Legal(Start(), steps) && 0 in Run(Start(), steps).objects && !Referenced(Run(Start(), steps), 0)
  {
    hide Legal, Run, Shape, FirstStored, FileStored, Apply;
    StoredIsReady();
    DeletingUploaderOrphansObject(FileStored(), 0);
    LeadsOn(Start(), FirstStored(), FileStored(), DeleteUser(0));
  }

  lemma StoredIsReady()
    ensures Leads(Start(), FirstStored(), FileStored()) && Shape(FileStored())
    ensures CanLand(FileStored(), 0) && FileStored().jobs == map[0 := Creation(Stored)]
    ensures FileStored().pending == map[0 := 0] && FileStored().objects == {0} && FileStored().gone == {}
  {
    hide Legal, Run, Shape, FirstStored, QuotaInv, Clean;
    FirstIsStored();
    EmptyIsGood(map[0 := Amount(1, 1)]);
    QuotaOverRuns(Start(), FirstStored());
  }

  // ---------- Billing ----------

  function UploadSize(jobs: map<nat, Job>): nat -> Amount {
    (k: nat) => if k in jobs then Amount(0, jobs[k].size) else Zero()
  }

  /** Whether an object is committed for a user, or queued for deletion at that user's expense. */
  predicate HeldFor(s: State, k: nat, u: UserId) {
    || (k in s.files && s.files[k].secret in s.secrets && s.secrets[s.files[k].secret] == Owned(u))
    || (k in s.outbox && s.outbox[k].owner == Owned(u) && !s.outbox[k].stage.Processed?)
  }

  function StoredKeys(s: State, u: UserId): set<nat> {
    set k | k in s.objects && k in s.jobs && HeldFor(s, k, u)
  }

  /** The stored objects that are held for a user, with the sizes that were uploaded. */
  ghost function StoredFor(s: State, u: UserId): map<nat, Amount> {
    Tabulate(StoredKeys(s, u), UploadSize(s.jobs))
  }

  lemma StoredForAre(s: State, u: UserId)
    ensures StoredFor(s, u).Keys == StoredKeys(s, u)
    ensures forall k :: k in StoredFor(s, u) ==> StoredFor(s, u)[k] == Amount(0, s.jobs[k].size)
  {
    hide Tabulate;
    Tabulated(StoredKeys(s, u), UploadSize(s.jobs));
  }

  /** What a user is billed for covers what is stored for that user. */
  lemma StoredIsBilled(s: State, u: UserId)
    requires Shape(s)
    ensures Total(StoredFor(s, u)).bytes <= Durable(s.secrets, s.files, s.outbox, u).bytes
  {
    hide Total, ActiveFiles, QueuedFiles, StoredFor, HoldsFit, PhasesFit, PendingFits, ReadersFit;
    StoredForAre(s, u);
    ActiveFilesAre(s.secrets, s.files, u);
    QueuedFilesAre(s.outbox, u);
    var active, queued := ActiveFiles(s.secrets, s.files, u), QueuedFiles(s.outbox, u);
    var billed := active + queued;
    assert Splits(billed, active, queued);
    TotalSplit(billed, active, queued);
    TotalPart(billed, StoredFor(s, u));
  }
}
