/** One file secret under concurrent updates and downloads. An update seals its file for the version it expects to
    create, long before it takes the row lock; a download fetches an object before it takes that lock. */
module FileVersions {
  import opened Bytes
  import F = FileFormat
  import H = VersionHistory

  /** A version row names its object and its key. */
  datatype Row = Row(blob: nat, keyVersion: nat)

  /** The secret's rows: current version (None once deleted), versions and wrapped keys. */
  datatype Rows = Rows(current: Option<nat>, versions: map<nat, Row>, keys: map<nat, H.Sealed>)

  datatype Phase = Checked | Uploaded | Committed | Failed

  /** An update request: the version it read, what it encrypts, and the seal it uses. Its number names its object. */
  datatype Job = Job(expected: nat, text: Bytes, seal: F.Seal, wrapped: H.Sealed, phase: Phase)

  /** A download: the version it first read, the object it located and fetched, and what it returned. */
  datatype Reader = Reader(version: nat, blob: Option<nat>, fetched: Option<Bytes>, got: Option<Bytes>)

  /** Everything about the secret; winners lists the jobs that created versions 1, 2, ... */
  datatype State = State(
    rows: Rows,
    objects: map<nat, Bytes>,
    jobs: map<nat, Job>,
    readers: map<nat, Reader>,
    winners: seq<nat>)

  datatype Step =
    | Check(j: nat, expected: nat, text: Bytes, dek: Bytes, prefix: Bytes, wrapNonce: Bytes)
    | Upload(j: nat)
    | Commit(j: nat)
    | Abort(j: nat)
    | Remove(j: nat)
    | Open(r: nat)
    | Locate(r: nat)
    | Fetch(r: nat)
    | Finish(r: nat)
    | Delete

  datatype Context = Context(vault: H.Vault, secretId: Bytes) {
    ghost predicate Valid() {
      vault.aead.Correct() && |secretId| == 16 && 1 <= vault.maxVersions <= 1000
    }
  }

  // ---------- The two locked transactions ----------

  /** Phase two of an update: it commits only on the version that phase one read. */
  function CommitRows(rows: Rows, expected: nat, blob: nat, wrapped: H.Sealed): (Rows, bool) {
    if rows.current != Some(expected) then (rows, false)
    else
      var key := H.LatestKey(rows.keys) + 1;
      (Rows(Some(expected + 1), rows.versions[expected + 1 := Row(blob, key)], rows.keys[key := wrapped]), true)
  }

  /** Phase two of a download: the version must still be current, and the object must open under its recorded key. */
  function LockedRead(c: Context, rows: Rows, version: nat, fetched: Bytes): Option<Bytes>
    requires FitsU32(version)
  {
    if rows.current != Some(version) || version !in rows.versions then None
    else if rows.versions[version].keyVersion !in rows.keys then None
    else
      match H.DekOf(c.vault, rows.keys, rows.versions[version].keyVersion)
      case None => None
      case Some(dek) =>
        match F.Decrypted(c.vault.aead, F.Seal(dek, [], c.secretId, version), fetched)
        case Failed(_) => None
        case Ok(text) => Some(text)
  }

  // ---------- Steps ----------

  function SealFor(c: Context, dek: Bytes, prefix: Bytes, version: nat): F.Seal {
    F.Seal(dek, prefix, c.secretId, version)
  }

  ghost predicate Encryptable(c: Context, job: Job) {
    c.vault.aead.Correct() && job.seal.Valid() && F.Chunks(job.text) <= F.MAX_CHUNKS
  }

  ghost function Object(c: Context, job: Job): Bytes
    requires Encryptable(c, job)
  {
    F.Encrypted(c.vault.aead, job.seal, job.text)
  }

  ghost function SetPhase(jobs: map<nat, Job>, j: nat, phase: Phase): map<nat, Job>
    requires j in jobs
  {
    jobs[j := jobs[j].(phase := phase)]
  }

  ghost function NewJob(c: Context, step: Step): Job
    requires step.Check?
  {
    Job(step.expected, step.text, SealFor(c, step.dek, step.prefix, step.expected + 1),
        c.vault.Wrap(H.Draw(step.dek, step.wrapNonce, [])), Checked)
  }

  /** A step that its guard does not allow changes nothing. */
  ghost function UpdateStep(c: Context, s: State, step: Step): State
    requires step.Check? || step.Upload? || step.Commit? || step.Abort?
  {
    match step
    case Check(j, expected, _, _, _, _) =>
      if j in s.jobs || s.rows.current != Some(expected) || expected >= c.vault.maxVersions then s
      else if !Encryptable(c, NewJob(c, step)) then s
      else s.(jobs := s.jobs[j := NewJob(c, step)])
    case Upload(j) =>
      if j !in s.jobs || s.jobs[j].phase != Checked || !Encryptable(c, s.jobs[j]) then s
      else s.(objects := s.objects[j := Object(c, s.jobs[j])], jobs := SetPhase(s.jobs, j, Uploaded))
    case Commit(j) =>
      if j !in s.jobs || s.jobs[j].phase != Uploaded then s
      else
        var (rows, won) := CommitRows(s.rows, s.jobs[j].expected, j, s.jobs[j].wrapped);
        if won then s.(rows := rows, jobs := SetPhase(s.jobs, j, Committed), winners := s.winners + [j])
        else s.(jobs := SetPhase(s.jobs, j, Failed))
    case Abort(j) =>
      if j !in s.jobs || s.jobs[j].phase == Committed then s else s.(jobs := SetPhase(s.jobs, j, Failed))
  }

  function ReadStep(c: Context, s: State, step: Step): State
    requires step.Open? || step.Locate? || step.Fetch? || step.Finish?
  {
    match step
    case Open(r) =>
      if r in s.readers || s.rows.current.None? then s
      else s.(readers := s.readers[r := Reader(s.rows.current.value, None, None, None)])
    case Locate(r) =>
      if r !in s.readers || s.readers[r].blob.Some? || s.readers[r].version !in s.rows.versions then s
      else s.(readers := s.readers[r := s.readers[r].(blob := Some(s.rows.versions[s.readers[r].version].blob))])
    case Fetch(r) =>
      if r !in s.readers || s.readers[r].blob.None? || s.readers[r].blob.value !in s.objects then s
      else s.(readers := s.readers[r := s.readers[r].(fetched := Some(s.objects[s.readers[r].blob.value]))])
    case Finish(r) =>
      if r !in s.readers || s.readers[r].fetched.None? || s.readers[r].got.Some?
          || !FitsU32(s.readers[r].version) then s
      else
        var text := LockedRead(c, s.rows, s.readers[r].version, s.readers[r].fetched.value);
        s.(readers := s.readers[r := s.readers[r].(got := text)])
  }

  /** Remove stands for every deletion of an object: compensation, the sweep, the outbox, or a loss in the store. */
  ghost function Next(c: Context, s: State, step: Step): State {
    match step
    case Check(_, _, _, _, _, _) => UpdateStep(c, s, step)
    case Upload(_) => UpdateStep(c, s, step)
    case Commit(_) => UpdateStep(c, s, step)
    case Abort(_) => UpdateStep(c, s, step)
    case Remove(j) => s.(objects := s.objects - {j})
    case Open(_) => ReadStep(c, s, step)
    case Locate(_) => ReadStep(c, s, step)
    case Fetch(_) => ReadStep(c, s, step)
    case Finish(_) => ReadStep(c, s, step)
    case Delete => s.(rows := Rows(None, map[], map[]))
  }

  ghost function RunAll(c: Context, s: State, steps: seq<Step>): State
    decreases |steps|
  {
    if steps == [] then s else RunAll(c, Next(c, s, steps[0]), steps[1..])
  }

  /** The file secret right after its creation by job 0. */
  ghost function Fresh(c: Context, job: Job): State
    requires Encryptable(c, job)
  {
    State(Rows(Some(1), map[1 := Row(0, 1)], map[1 := job.wrapped]),
          map[0 := Object(c, job)], map[0 := job], map[], [0])
  }

  // ---------- What every run keeps ----------

  ghost predicate JobFits(c: Context, job: Job) {
    && Encryptable(c, job) && job.expected < c.vault.maxVersions
    && job.seal == SealFor(c, job.seal.key, job.seal.prefix, job.expected + 1)
    && c.vault.Unwrap(job.wrapped) == Some(job.seal.key)
  }

  ghost predicate JobsFit(c: Context, jobs: map<nat, Job>) {
    forall j :: j in jobs ==> JobFits(c, jobs[j])
  }

  ghost predicate IsObjectOf(c: Context, jobs: map<nat, Job>, j: nat, content: Bytes) {
    j in jobs && JobFits(c, jobs[j]) && content == Object(c, jobs[j])
  }

  ghost predicate ObjectsFit(c: Context, jobs: map<nat, Job>, objects: map<nat, Bytes>) {
    forall j :: j in objects ==> IsObjectOf(c, jobs, j, objects[j])
  }

  /** Job j created version i: it expected the version before. */
  ghost predicate Created(jobs: map<nat, Job>, winners: seq<nat>, i: nat) {
    1 <= i <= |winners| && winners[i - 1] in jobs
    && jobs[winners[i - 1]].expected == i - 1 && jobs[winners[i - 1]].phase == Committed
  }

  ghost predicate WinnersFit(jobs: map<nat, Job>, winners: seq<nat>) {
    && (forall i :: 1 <= i <= |winners| ==> Created(jobs, winners, i))
    && (forall j :: j in jobs && jobs[j].phase == Committed ==> Won(jobs, winners, j))
  }

  ghost predicate Won(jobs: map<nat, Job>, winners: seq<nat>, j: nat) {
    j in jobs && jobs[j].expected < |winners| && winners[jobs[j].expected] == j
  }

  ghost predicate RowFits(c: Context, rows: Rows, jobs: map<nat, Job>, winners: seq<nat>, i: nat) {
    && i in rows.versions && 1 <= i <= |winners|
    && rows.versions[i].blob == winners[i - 1] && winners[i - 1] in jobs
    && rows.versions[i].keyVersion in rows.keys
    && H.DekOf(c.vault, rows.keys, rows.versions[i].keyVersion) == Some(jobs[winners[i - 1]].seal.key)
  }

  ghost predicate RowsFit(c: Context, rows: Rows, jobs: map<nat, Job>, winners: seq<nat>) {
    && |winners| <= c.vault.maxVersions
    && (rows.current.Some? ==> rows.current.value == |winners| >= 1)
    && (rows.current.Some? ==> forall i :: 1 <= i <= |winners| ==> i in rows.versions)
    && (forall i :: i in rows.versions ==> RowFits(c, rows, jobs, winners, i))
  }

  /** A reader holds the object of the version it read, and has returned nothing but that version's file. */
  ghost predicate ReaderFits(c: Context, jobs: map<nat, Job>, winners: seq<nat>, r: Reader) {
    && 1 <= r.version <= |winners| && winners[r.version - 1] in jobs
    && (r.blob.Some? ==> r.blob.value == winners[r.version - 1])
    && (r.fetched.Some? ==> IsObjectOf(c, jobs, winners[r.version - 1], r.fetched.value))
    && (r.got.Some? ==> r.got.value == jobs[winners[r.version - 1]].text)
  }

  ghost predicate ReadersFit(c: Context, jobs: map<nat, Job>, winners: seq<nat>, readers: map<nat, Reader>) {
    forall r :: r in readers ==> ReaderFits(c, jobs, winners, readers[r])
  }

  ghost predicate Good(c: Context, s: State) {
    && JobsFit(c, s.jobs)
    && ObjectsFit(c, s.jobs, s.objects)
    && WinnersFit(s.jobs, s.winners)
    && RowsFit(c, s.rows, s.jobs, s.winners)
    && ReadersFit(c, s.jobs, s.winners, s.readers)
  }

  // ---------- Proofs ----------

  /** Jobs only change phase, and winners are only appended. */
  ghost predicate Later(jobs: map<nat, Job>, winners: seq<nat>, jobs': map<nat, Job>, winners': seq<nat>) {
    && (forall j :: j in jobs ==> j in jobs' && jobs'[j].(phase := jobs[j].phase) == jobs[j])
    && winners <= winners'
  }

  lemma FitsLater(c: Context, s: State, jobs': map<nat, Job>, winners': seq<nat>)
    requires ObjectsFit(c, s.jobs, s.objects) && ReadersFit(c, s.jobs, s.winners, s.readers)
    requires Later(s.jobs, s.winners, jobs', winners')
    ensures ObjectsFit(c, jobs', s.objects) && ReadersFit(c, jobs', winners', s.readers)
  {
    forall j: nat, content: Bytes | IsObjectOf(c, s.jobs, j, content) ensures IsObjectOf(c, jobs', j, content) {
      SameObject(c, s.jobs[j], jobs'[j]);
    }
  }

  lemma SameObject(c: Context, job: Job, job': Job)
    requires JobFits(c, job) && job'.(phase := job.phase) == job
    ensures JobFits(c, job') && Object(c, job') == Object(c, job)
  {
  }

  lemma WonRowsFit(c: Context, rows: Rows, jobs: map<nat, Job>, winners: seq<nat>, j: nat, jobs': map<nat, Job>)
    requires RowsFit(c, rows, jobs, winners) && JobsFit(c, jobs) && j in jobs
    requires rows.current == Some(jobs[j].expected) && jobs' == SetPhase(jobs, j, Committed)
    ensures RowsFit(c, CommitRows(rows, jobs[j].expected, j, jobs[j].wrapped).0, jobs', winners + [j])
  {
    hide Encryptable, H.Vault.Unwrap;
    var rows' := CommitRows(rows, jobs[j].expected, j, jobs[j].wrapped).0;
    forall i | i in rows'.versions ensures RowFits(c, rows', jobs', winners + [j], i) {
      assert JobFits(c, jobs[j]);
      assert i <= |winners| ==> RowFits(c, rows, jobs, winners, i);
    }
  }

  lemma WonWinnersFit(jobs: map<nat, Job>, winners: seq<nat>, j: nat, jobs': map<nat, Job>)
    requires WinnersFit(jobs, winners) && j in jobs && jobs[j].phase == Uploaded && jobs[j].expected == |winners|
    requires jobs' == SetPhase(jobs, j, Committed)
    ensures WinnersFit(jobs', winners + [j])
  {
    var winners' := winners + [j];
    forall i | 1 <= i <= |winners'| ensures Created(jobs', winners', i) {
      assert i <= |winners| ==> Created(jobs, winners, i);
    }
    forall k | k in jobs' && jobs'[k].phase == Committed ensures Won(jobs', winners', k) {
      assert k != j ==> Won(jobs, winners, k);
    }
  }

  lemma PhaseKeeps(c: Context, s: State, j: nat, phase: Phase)
    requires Good(c, s) && j in s.jobs && phase != Committed && s.jobs[j].phase != Committed
    ensures
      var jobs' := SetPhase(s.jobs, j, phase);
      JobsFit(c, jobs') && WinnersFit(jobs', s.winners) && RowsFit(c, s.rows, jobs', s.winners)
  {
    hide Encryptable, H.Vault.Unwrap;
    var jobs' := SetPhase(s.jobs, j, phase);
    SameObject(c, s.jobs[j], jobs'[j]);
    forall i | 1 <= i <= |s.winners| ensures Created(jobs', s.winners, i) {
      assert Created(s.jobs, s.winners, i);
    }
    forall k | k in jobs' && jobs'[k].phase == Committed ensures Won(jobs', s.winners, k) {
      assert Won(s.jobs, s.winners, k);
    }
    forall i | i in s.rows.versions ensures RowFits(c, s.rows, jobs', s.winners, i) {
      assert RowFits(c, s.rows, s.jobs, s.winners, i);
    }
  }

  lemma CommitKeeps(c: Context, s: State, j: nat)
    requires c.Valid() && Good(c, s)
    ensures Good(c, Next(c, s, Commit(j)))
  {
    hide Encryptable, H.Vault.Unwrap, ObjectsFit, ReadersFit, WinnersFit, RowsFit;
    if j in s.jobs && s.jobs[j].phase == Uploaded {
      var s' := Next(c, s, Commit(j));
      FitsLater(c, s, s'.jobs, s'.winners);
      SameObject(c, s.jobs[j], s'.jobs[j]);
      if s.rows.current == Some(s.jobs[j].expected) {
        WonRowsFit(c, s.rows, s.jobs, s.winners, j, s'.jobs);
        CurrentIsLast(c, s);
        WonWinnersFit(s.jobs, s.winners, j, s'.jobs);
      } else {
        PhaseKeeps(c, s, j, Failed);
      }
    }
  }

  lemma CurrentIsLast(c: Context, s: State)
    requires RowsFit(c, s.rows, s.jobs, s.winners)
    ensures s.rows.current.Some? ==> s.rows.current.value == |s.winners|
  {
  }

  lemma CheckKeeps(c: Context, s: State, step: Step)
    requires c.Valid() && Good(c, s) && step.Check?
    ensures Good(c, Next(c, s, step))
  {
    hide Encryptable, ObjectsFit, ReadersFit;
    var s' := Next(c, s, step);
    if s' != s {
      FitsLater(c, s, s'.jobs, s'.winners);
      assert JobFits(c, NewJob(c, step));
      forall i | 1 <= i <= |s.winners| ensures Created(s'.jobs, s'.winners, i) {
        assert Created(s.jobs, s.winners, i);
      }
      forall k | k in s'.jobs && s'.jobs[k].phase == Committed ensures Won(s'.jobs, s'.winners, k) {
        assert Won(s.jobs, s.winners, k);
      }
      forall i | i in s.rows.versions ensures RowFits(c, s.rows, s'.jobs, s.winners, i) {
        assert RowFits(c, s.rows, s.jobs, s.winners, i);
      }
    }
  }

  lemma UploadKeeps(c: Context, s: State, j: nat)
    requires c.Valid() && Good(c, s)
    ensures Good(c, Next(c, s, Upload(j)))
  {
    hide F.Encrypted, F.Chunks, ReadersFit, WinnersFit, RowsFit;
    var s' := Next(c, s, Upload(j));
    if s'.jobs != s.jobs {
      FitsLater(c, s, s'.jobs, s'.winners);
      PhaseKeeps(c, s, j, Uploaded);
      SameObject(c, s.jobs[j], s'.jobs[j]);
    }
  }

  lemma AbortKeeps(c: Context, s: State, j: nat)
    requires c.Valid() && Good(c, s)
    ensures Good(c, Next(c, s, Abort(j)))
  {
    hide ObjectsFit, JobsFit, ReadersFit, WinnersFit, RowsFit;
    if j in s.jobs && s.jobs[j].phase != Committed {
      FitsLater(c, s, SetPhase(s.jobs, j, Failed), s.winners);
      PhaseKeeps(c, s, j, Failed);
    }
  }

  /** An object that opens under the key of the current row is the current file. */
  lemma LockedReadIsCurrent(c: Context, s: State, version: nat, fetched: Bytes)
    requires c.Valid() && Good(c, s) && s.rows.current == Some(version) && FitsU32(version)
    requires IsObjectOf(c, s.jobs, s.winners[version - 1], fetched)
    ensures LockedRead(c, s.rows, version, fetched) == Some(s.jobs[s.winners[version - 1]].text)
  {
    hide F.Decrypted, F.Encrypted, F.Chunks, H.Vault.Unwrap, ReadersFit, ObjectsFit, WinnersFit;
    var job := s.jobs[s.winners[version - 1]];
    assert RowFits(c, s.rows, s.jobs, s.winners, version);
    PrefixComesFromHeader(c.vault.aead, job.seal, job.text);
    assert WinnersFit(s.jobs, s.winners);
    VersionIsSealed(c, s, version);
  }

  lemma VersionIsSealed(c: Context, s: State, i: nat)
    requires WinnersFit(s.jobs, s.winners) && JobsFit(c, s.jobs) && 1 <= i <= |s.winners|
    ensures
      && s.winners[i - 1] in s.jobs
      && var seal := s.jobs[s.winners[i - 1]].seal; seal == SealFor(c, seal.key, seal.prefix, i)
  {
    assert Created(s.jobs, s.winners, i);
    assert JobFits(c, s.jobs[s.winners[i - 1]]);
  }

  lemma PrefixComesFromHeader(a: Aead, seal: F.Seal, text: Bytes)
    requires a.Correct() && seal.Valid() && F.Chunks(text) <= F.MAX_CHUNKS
    ensures F.Decrypted(a, seal.(prefix := []), F.Encrypted(a, seal, text)) == F.Ok(text)
  {
    F.RoundTrip(a, seal, text);
    assert seal.(prefix := []).(prefix := F.Encrypted(a, seal, text)[8..16])
        == seal.(prefix := F.Encrypted(a, seal, text)[8..16]);
  }

  lemma ReadKeeps(c: Context, s: State, step: Step)
    requires c.Valid() && Good(c, s) && (step.Open? || step.Locate? || step.Fetch? || step.Finish?)
    ensures Good(c, Next(c, s, step))
  {
    hide Object, Encryptable, JobsFit, LockedRead, H.DekOf;
    match step
    case Open(r) =>
      if s.rows.current.Some? {
        assert Created(s.jobs, s.winners, |s.winners|);
      }
    case Locate(r) =>
      if r in s.readers && s.readers[r].version in s.rows.versions {
        assert RowFits(c, s.rows, s.jobs, s.winners, s.readers[r].version);
      }
    case Fetch(r) =>
    case Finish(r) =>
      if r in s.readers && s.readers[r].fetched.Some? && FitsU32(s.readers[r].version) {
        assert ReaderFits(c, s.jobs, s.winners, s.readers[r]);
        if s.rows.current == Some(s.readers[r].version) {
          LockedReadIsCurrent(c, s, s.readers[r].version, s.readers[r].fetched.value);
        } else {
          StaleReadFails(c, s.rows, s.readers[r].version, s.readers[r].fetched.value);
        }
      }
  }

  lemma StaleReadFails(c: Context, rows: Rows, version: nat, fetched: Bytes)
    requires FitsU32(version) && rows.current != Some(version)
    ensures LockedRead(c, rows, version, fetched) == None
  {
  }

  lemma StepKeepsGood(c: Context, s: State, step: Step)
    requires c.Valid() && Good(c, s)
    ensures Good(c, Next(c, s, step))
  {
    hide Encryptable, JobsFit, WinnersFit, ReadersFit, UpdateStep, ReadStep;
    match step
    case Check(_, _, _, _, _, _) => CheckKeeps(c, s, step);
    case Upload(j) => UploadKeeps(c, s, j);
    case Commit(j) => CommitKeeps(c, s, j);
    case Abort(j) => AbortKeeps(c, s, j);
    case Remove(_) =>
    case Open(_) => ReadKeeps(c, s, step);
    case Locate(_) => ReadKeeps(c, s, step);
    case Fetch(_) => ReadKeeps(c, s, step);
    case Finish(_) => ReadKeeps(c, s, step);
    case Delete =>
  }

  lemma {:induction false} GoodOverRuns(c: Context, s: State, steps: seq<Step>)
    requires c.Valid() && Good(c, s)
    ensures Good(c, RunAll(c, s, steps))
    decreases |steps|
  {
    hide Good, Next;
    if steps != [] {
      StepKeepsGood(c, s, steps[0]);
      GoodOverRuns(c, Next(c, s, steps[0]), steps[1..]);
    }
  }

  lemma FreshIsGood(c: Context, job: Job)
    requires c.Valid() && JobFits(c, job) && job.expected == 0 && job.phase == Committed
    ensures Good(c, Fresh(c, job))
  {
    hide F.Chunks, F.Encrypted;
    var s := Fresh(c, job);
    assert Created(s.jobs, s.winners, 1) && Won(s.jobs, s.winners, 0);
    assert IsObjectOf(c, s.jobs, 0, s.objects[0]);
    assert RowFits(c, s.rows, s.jobs, s.winners, 1);
  }

  // ---------- What runs guarantee ----------

  lemma ReachedIsGood(c: Context, first: Job, steps: seq<Step>)
    requires c.Valid() && JobFits(c, first) && first.expected == 0 && first.phase == Committed
    ensures Good(c, RunAll(c, Fresh(c, first), steps))
  {
    hide Good;
    FreshIsGood(c, first);
    GoodOverRuns(c, Fresh(c, first), steps);
  }

  /** However many updates race, at most one wins for each base version. */
  lemma OneWinnerPerVersion(c: Context, first: Job, steps: seq<Step>, j: nat, k: nat)
    requires c.Valid() && JobFits(c, first) && first.expected == 0 && first.phase == Committed
    requires
      var jobs := RunAll(c, Fresh(c, first), steps).jobs;
      && j in jobs && jobs[j].phase == Committed && k in jobs && jobs[k].phase == Committed
      && jobs[j].expected == jobs[k].expected
    ensures j == k
  {
    var s := RunAll(c, Fresh(c, first), steps);
    ReachedIsGood(c, first, steps);
    assert Won(s.jobs, s.winners, j) && Won(s.jobs, s.winners, k);
  }

  /** While the secret exists its versions are exactly 1..current, and version i is the file of a job that expected
      version i - 1 and sealed its object for version i. */
  lemma VersionsMatchSeals(c: Context, first: Job, steps: seq<Step>, i: nat)
    requires c.Valid() && JobFits(c, first) && first.expected == 0 && first.phase == Committed
    requires RunAll(c, Fresh(c, first), steps).rows.current.Some?
    ensures
      var s := RunAll(c, Fresh(c, first), steps);
      && s.rows.current.value <= c.vault.maxVersions
      && (i in s.rows.versions <==> 1 <= i <= s.rows.current.value)
      && (i in s.rows.versions ==>
            && s.rows.versions[i].blob in s.jobs
            && s.jobs[s.rows.versions[i].blob].phase == Committed
            && s.jobs[s.rows.versions[i].blob].expected == i - 1
            && s.jobs[s.rows.versions[i].blob].seal.version == i)
  {
    hide H.DekOf, Encryptable, Object;
    var s := RunAll(c, Fresh(c, first), steps);
    ReachedIsGood(c, first, steps);
    if i in s.rows.versions {
      assert RowFits(c, s.rows, s.jobs, s.winners, i);
      assert Created(s.jobs, s.winners, i);
      VersionIsSealed(c, s, i);
    }
  }

  /** Whatever a download returns is the file of the job that created the version it read, and that version was still
      current when it returned. */
  lemma DownloadsAreExact(c: Context, first: Job, steps: seq<Step>, r: nat)
    requires c.Valid() && JobFits(c, first) && first.expected == 0 && first.phase == Committed
    ensures
      var s := RunAll(c, Fresh(c, first), steps);
      var s' := Next(c, s, Finish(r));
      r in s'.readers && s'.readers[r].got.Some? ==>
        var version := s'.readers[r].version;
        && 1 <= version <= |s'.winners| && s'.winners[version - 1] in s'.jobs
        && s'.jobs[s'.winners[version - 1]].expected == version - 1
        && s'.readers[r].got.value == s'.jobs[s'.winners[version - 1]].text
        && (s != s' ==> s.rows.current == Some(version))
  {
    hide Good, Next, RunAll, Fresh;
    var s := RunAll(c, Fresh(c, first), steps);
    ReachedIsGood(c, first, steps);
    StepKeepsGood(c, s, Finish(r));
    var s' := Next(c, s, Finish(r));
    if r in s'.readers && s'.readers[r].got.Some? {
      ReturnedIsExact(c, s', r);
      ReturnsWhileCurrent(c, s, r);
    }
  }

  lemma ReturnedIsExact(c: Context, s: State, r: nat)
    requires Good(c, s) && r in s.readers && s.readers[r].got.Some?
    ensures
      var version := s.readers[r].version;
      && 1 <= version <= |s.winners| && s.winners[version - 1] in s.jobs
      && s.jobs[s.winners[version - 1]].expected == version - 1
      && s.readers[r].got.value == s.jobs[s.winners[version - 1]].text
  {
    hide JobsFit, ObjectsFit, RowsFit, IsObjectOf;
    assert ReaderFits(c, s.jobs, s.winners, s.readers[r]);
    assert Created(s.jobs, s.winners, s.readers[r].version);
  }

  lemma ReturnsWhileCurrent(c: Context, s: State, r: nat)
    ensures
      var s' := Next(c, s, Finish(r));
      r in s'.readers && s'.readers[r].got.Some? && s != s' ==> s.rows.current == Some(s'.readers[r].version)
  {
    hide F.Decrypted, H.DekOf;
  }

  /** A download that fetched its object and finds its version still current succeeds. */
  lemma FetchedDownloadSucceeds(c: Context, first: Job, steps: seq<Step>, r: nat)
    requires c.Valid() && JobFits(c, first) && first.expected == 0 && first.phase == Committed
    requires
      var s := RunAll(c, Fresh(c, first), steps);
      && r in s.readers && s.readers[r].fetched.Some? && s.rows.current == Some(s.readers[r].version)
    ensures Next(c, RunAll(c, Fresh(c, first), steps), Finish(r)).readers[r].got.Some?
  {
    hide F.Decrypted, H.DekOf, Encryptable, Object, LockedRead;
    var s := RunAll(c, Fresh(c, first), steps);
    ReachedIsGood(c, first, steps);
    assert ReaderFits(c, s.jobs, s.winners, s.readers[r]);
    if s.readers[r].got.None? {
      LockedReadIsCurrent(c, s, s.readers[r].version, s.readers[r].fetched.value);
    }
  }

  // ---------- Who wins, and under which key ----------

  /** A commit wins exactly when its job is uploaded and the version it expected is still current. Winning adds the next
      version, with this job's object, under a new key numbered one above all others, and leaves every other version and
      key alone; losing changes nothing but the job. */
  lemma CommitWinsExactly(c: Context, s: State, j: nat)
    requires j in s.jobs && s.jobs[j].phase == Uploaded
    ensures
      var job, s' := s.jobs[j], Next(c, s, Commit(j));
      if s.rows.current == Some(job.expected) then
        var version := job.expected + 1;
        && s'.jobs == s.jobs[j := job.(phase := Committed)] && s'.winners == s.winners + [j]
        && s'.rows.current == Some(version)
        && version in s'.rows.versions && s'.rows.versions[version].blob == j
        && s'.rows.versions - {version} == s.rows.versions - {version}
        && var key := s'.rows.versions[version].keyVersion;
        && key in s'.rows.keys && s'.rows.keys[key] == job.wrapped
        && (forall k :: k in s.rows.keys ==> k < key) && (key == 1 || key - 1 in s.rows.keys)
        && s'.rows.keys - {key} == s.rows.keys
      else s' == s.(jobs := s.jobs[j := job.(phase := Failed)])
  {
    var s' := Next(c, s, Commit(j));
    if s.rows.current == Some(s.jobs[j].expected) {
      var version, key := s.jobs[j].expected + 1, H.LatestKey(s.rows.keys) + 1;
      assert s'.rows.versions - {version} == s.rows.versions - {version};
      assert s'.rows.keys - {key} == s.rows.keys;
    }
  }

  lemma StepKeepsFailed(c: Context, s: State, step: Step, j: nat)
    requires j in s.jobs && s.jobs[j].phase == Failed
    ensures j in Next(c, s, step).jobs && Next(c, s, step).jobs[j].phase == Failed
  {
    hide Encryptable, Object, LockedRead, CommitRows;
  }

  /** An update that has failed, because it lost or because it was given up, never becomes a version. */
  lemma {:induction false} FailedStaysOut(c: Context, s: State, steps: seq<Step>, j: nat)
    requires j in s.jobs && s.jobs[j].phase == Failed
    ensures j in RunAll(c, s, steps).jobs && RunAll(c, s, steps).jobs[j].phase == Failed
    decreases |steps|
  {
    hide Next;
    if steps != [] {
      StepKeepsFailed(c, s, steps[0], j);
      FailedStaysOut(c, Next(c, s, steps[0]), steps[1..], j);
    }
  }

  lemma GivenUpStaysOut(c: Context, s: State, steps: seq<Step>, j: nat)
    requires j in s.jobs && s.jobs[j].phase != Committed
    ensures
      var jobs := RunAll(c, Next(c, s, Abort(j)), steps).jobs;
      j in jobs && jobs[j].phase == Failed
  {
    FailedStaysOut(c, Next(c, s, Abort(j)), steps, j);
  }

  /** While the secret exists there is one key for each version, under the version's number. */
  ghost predicate KeysMatch(rows: Rows) {
    rows.current.Some? ==>
      && (forall k :: k in rows.keys <==> 1 <= k <= rows.current.value)
      && (forall i :: i in rows.versions ==> rows.versions[i].keyVersion == i)
  }

  lemma CommitKeepsKeys(rows: Rows, expected: nat, blob: nat, wrapped: H.Sealed)
    requires KeysMatch(rows) && (rows.current.Some? ==> rows.current.value >= 1)
    ensures KeysMatch(CommitRows(rows, expected, blob, wrapped).0)
  {
    if rows.current == Some(expected) {
      H.LatestIs(rows.keys, expected);
    }
  }

  lemma StepKeepsKeys(c: Context, s: State, step: Step)
    requires KeysMatch(s.rows) && (s.rows.current.Some? ==> s.rows.current.value >= 1)
    ensures KeysMatch(Next(c, s, step).rows)
  {
    hide KeysMatch, Encryptable, LockedRead, CommitRows;
    match step
    case Commit(j) =>
      if j in s.jobs {
        CommitKeepsKeys(s.rows, s.jobs[j].expected, j, s.jobs[j].wrapped);
      }
    case Delete => DeletedKeysMatch();
    case _ =>
  }

  lemma DeletedKeysMatch()
    ensures KeysMatch(Rows(None, map[], map[]))
  {
  }

  lemma {:induction false} KeysOverRuns(c: Context, s: State, steps: seq<Step>)
    requires c.Valid() && Good(c, s) && KeysMatch(s.rows)
    ensures KeysMatch(RunAll(c, s, steps).rows)
    decreases |steps|
  {
    hide KeysMatch, Next, JobsFit, ObjectsFit, WinnersFit, ReadersFit;
    if steps != [] {
      StepKeepsGood(c, s, steps[0]);
      StepKeepsKeys(c, s, steps[0]);
      KeysOverRuns(c, Next(c, s, steps[0]), steps[1..]);
    }
  }

  /** In every run, while the secret exists, its keys are 1..current, and version i is sealed under key i. */
  lemma VersionsMatchKeys(c: Context, first: Job, steps: seq<Step>)
    requires c.Valid() && JobFits(c, first) && first.expected == 0 && first.phase == Committed
    ensures
      var rows := RunAll(c, Fresh(c, first), steps).rows;
      rows.current.Some? ==>
        && (forall k :: k in rows.keys <==> 1 <= k <= rows.current.value)
        && (forall i :: i in rows.versions ==> rows.versions[i].keyVersion == i)
  {
    hide Good, RunAll;
    FreshIsGood(c, first);
    KeysOverRuns(c, Fresh(c, first), steps);
  }

  // ---------- An update and a download that nobody disturbs ----------

  lemma UndisturbedUpdate(c: Context, s: State, step: Step)
    requires step.Check? && step.j !in s.jobs && s.rows.current == Some(step.expected)
    requires step.expected < c.vault.maxVersions && Encryptable(c, NewJob(c, step))
    ensures
      var j, s' := step.j, Next(c, Next(c, Next(c, s, step), Upload(step.j)), Commit(step.j));
      && j in s'.objects && s'.winners == s.winners + [j]
      && j in s'.jobs && s'.jobs[j].text == step.text
      && s'.rows.current == Some(step.expected + 1)
      && s'.readers == s.readers
  {
    hide F.Chunks, CommitRows;
    var s1 := Next(c, s, step);
    assert s1 == s.(jobs := s.jobs[step.j := NewJob(c, step)]);
    var s2 := Next(c, s1, Upload(step.j));
    assert s2.jobs[step.j] == NewJob(c, step).(phase := Uploaded) && s2.rows == s.rows;
    CommitWinsExactly(c, s2, step.j);
  }

  lemma UndisturbedDownload(c: Context, s: State, r: nat)
    requires c.Valid() && Good(c, s) && r !in s.readers && s.rows.current.Some?
    requires s.winners[|s.winners| - 1] in s.objects
    ensures
      var s' := Next(c, Next(c, Next(c, Next(c, s, Open(r)), Locate(r)), Fetch(r)), Finish(r));
      && r in s'.readers && s'.readers[r].version == s.rows.current.value
      && s'.readers[r].got == Some(s.jobs[s.winners[|s.winners| - 1]].text)
      && s'.rows == s.rows
  {
    hide LockedRead, IsObjectOf, RowFits, WinnersFit, ReadersFit, JobsFit;
    var n, j := s.rows.current.value, s.winners[|s.winners| - 1];
    assert RowFits(c, s.rows, s.jobs, s.winners, n);
    RowNamesWinner(c, s.rows, s.jobs, s.winners, n);
    var s1 := Next(c, s, Open(r));
    var s2 := Next(c, s1, Locate(r));
    var s3 := Next(c, s2, Fetch(r));
    assert s3.readers[r] == Reader(n, Some(j), Some(s.objects[j]), None);
    LockedReadIsCurrent(c, s, n, s.objects[j]);
  }

  lemma RowNamesWinner(c: Context, rows: Rows, jobs: map<nat, Job>, winners: seq<nat>, i: nat)
    requires RowFits(c, rows, jobs, winners, i)
    ensures rows.versions[i].blob == winners[i - 1]
  {
  }

  /** At any point of any run, an update of the current version that nobody disturbs becomes the next version, and a
      download after it returns its file. */
  lemma UpdateIsDownloaded(c: Context, first: Job, steps: seq<Step>, step: Step, r: nat)
    requires c.Valid() && JobFits(c, first) && first.expected == 0 && first.phase == Committed
    requires
      var s := RunAll(c, Fresh(c, first), steps);
      && step.Check? && step.j !in s.jobs && s.rows.current == Some(step.expected)
      && step.expected < c.vault.maxVersions && Encryptable(c, NewJob(c, step)) && r !in s.readers
    ensures
      var s := RunAll(c, Fresh(c, first), steps);
      var updated := Next(c, Next(c, Next(c, s, step), Upload(step.j)), Commit(step.j));
      var s' := Next(c, Next(c, Next(c, Next(c, updated, Open(r)), Locate(r)), Fetch(r)), Finish(r));
      && s'.rows.current == Some(step.expected + 1)
      && r in s'.readers && s'.readers[r].version == step.expected + 1 && s'.readers[r].got == Some(step.text)
  {
    hide Good, Next, RunAll, Encryptable;
    var s := RunAll(c, Fresh(c, first), steps);
    ReachedIsGood(c, first, steps);
    StepKeepsGood(c, s, step);
    StepKeepsGood(c, Next(c, s, step), Upload(step.j));
    StepKeepsGood(c, Next(c, Next(c, s, step), Upload(step.j)), Commit(step.j));
    UndisturbedUpdate(c, s, step);
    UndisturbedDownload(c, Next(c, Next(c, Next(c, s, step), Upload(step.j)), Commit(step.j)), r);
  }

  // ---------- The rows ----------

  /** The secret's rows, changed under the lock of its secrets row. */
  class FileStore {
    var current: Option<nat>
    var versions: map<nat, Row>
    var keys: map<nat, H.Sealed>

    function Contents(): Rows
      reads this
    {
      Rows(current, versions, keys)
    }

    constructor (wrapped: H.Sealed, blob: nat)
      ensures Contents() == Rows(Some(1), map[1 := Row(blob, 1)], map[1 := wrapped])
    {
      current := Some(1);
      keys := map[1 := wrapped];
      versions := map[1 := Row(blob, 1)];
    }

    method CommitUpdate(expected: nat, blob: nat, wrapped: H.Sealed) returns (won: bool)
      modifies this
      ensures (Contents(), won) == CommitRows(old(Contents()), expected, blob, wrapped)
    {
      if current != Some(expected) {
        return false;
      }
      var key := H.LatestKey(keys) + 1;
      keys := keys[key := wrapped];
      versions := versions[expected + 1 := Row(blob, key)];
      current := Some(expected + 1);
      return true;
    }

    method ReadLocked(c: Context, version: nat, fetched: Bytes) returns (text: Option<Bytes>)
      requires FitsU32(version)
      ensures text == LockedRead(c, Contents(), version, fetched)
    {
      if current != Some(version) || version !in versions || versions[version].keyVersion !in keys {
        return None;
      }
      var dek := H.DekOf(c.vault, keys, versions[version].keyVersion);
      if dek.None? {
        return None;
      }
      var result, _ := F.DecryptFile(c.vault.aead, F.Seal(dek.value, [], c.secretId, version), fetched);
      return if result.Ok? then Some(result.text) else None;
    }
  }
}
