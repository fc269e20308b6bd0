/** A run from the empty backend that uploads and commits a file, and one in which an administrator then adds a version
    to it: the owner's limit of one byte is exceeded although every reservation was granted. */
module FileWitness {
  import opened Amounts
  import opened QuotaScripts
  import opened Backend
  import opened UsageSums
  import opened QuotaRuns
  import opened QuotaWitness

  /** User 0 creates a secret with a file of one byte; user 1 adds a version of one byte. */
  function Creation(phase: Phase): Job { Job(FileCreate, 0, 1, phase) }

  function Addition(phase: Phase): Job { Job(FileUpdate(0), 1, 1, phase) }

  function Rid(j: nat, d: Dim): ReservationId { ReservationId(j, d) }

  function Holding(): map<ReservationId, Hold> {
    map[Rid(0, Secrets) := Hold(0, Amount(1, 0), false), Rid(0, Bytes) := Hold(0, Amount(0, 1), false)]
  }

  function Expiring(): map<ReservationId, int> {
    map[Rid(0, Secrets) := 600, Rid(0, Bytes) := 600]
  }

  function AtFiles(redis: Redis, secrets: map<nat, Owner>, files: map<nat, FileRow>, pending: map<nat, UserId>,
                   objects: set<nat>, jobs: map<nat, Job>, landed: set<nat>, owed: map<UserId, Amount>): State {
    State(redis, secrets, files, map[], pending, objects, jobs, {}, map[], map[], map[0 := Amount(1, 1)], landed, {},
          owed, owed)
  }

  // The states of the first request.

  function FileAsked(): State {
    AtFiles(Redis(map[], map[], map[]), map[], map[], map[], {}, map[0 := Creation(Begun)], {}, map[])
  }

  function FileGranted(): State {
    AtFiles(Redis(map[0 := Amount(1, 0)], map[Rid(0, Secrets) := Hold(0, Amount(1, 0), false)],
                  map[Rid(0, Secrets) := 600]),
            map[], map[], map[], {}, map[0 := Creation(Granted)], {}, Just(0))
  }

  /** Both reservations are held; the phase, the pending row and the object vary. */
  function Uploading(phase: Phase, pending: map<nat, UserId>, objects: set<nat>): State {
    AtFiles(Redis(map[0 := Amount(1, 1)], Holding(), Expiring()),
            map[], map[], pending, objects, map[0 := Creation(phase)], {}, Just(0))
  }

  function FileStored(): State { Uploading(Stored, map[0 := 0], {0}) }

  /** The file is committed, and its reservations are still held. */
  function FileLanded(jobs: map<nat, Job>): State {
    AtFiles(Redis(map[0 := Amount(1, 1)], Holding(), Expiring()),
            map[0 := Owned(0)], map[0 := FileRow(0, 1)], map[], {0}, jobs, {0}, Just(0))
  }

  // ---------- The first request ----------

  lemma FileReserves()
    ensures
      var s := ReadBy(FileAsked(), 0, Seen(0, {}, 0));
      Enabled(s, TryReserve(0, 0, 600)) && DoReserve(s, 0, 0, 600) == FileGranted()
  {
    hide DoReserve;
    GrantedReserve(ReadBy(FileAsked(), 0, Seen(0, {}, 0)), 0, 0, 600);
  }

  lemma FileReservesBytes()
    ensures
      var s := ReadBy(FileGranted(), 0, Seen(0, {}, 0));
      Enabled(s, TryReserve(0, 0, 600)) && DoReserve(s, 0, 0, 600) == Uploading(Funded, map[], {})
  {
    hide DoReserve;
    GrantedReserve(ReadBy(FileGranted(), 0, Seen(0, {}, 0)), 0, 0, 600);
  }

  lemma FileStages()
    ensures Enabled(Uploading(Funded, map[], {}), StageUpload(0))
    ensures DoStage(Uploading(Funded, map[], {}), 0) == Uploading(Staged, map[0 := 0], {})
  {
  }

  lemma FileStores()
    ensures Enabled(Uploading(Staged, map[0 := 0], {}), StoreObject(0))
    ensures DoStore(Uploading(Staged, map[0 := 0], {}), 0) == FileStored()
  {
  }

  lemma FileLands()
    ensures CanLand(FileStored(), 0) && DoLand(FileStored(), 0, true) == FileLanded(map[0 := Creation(Landed)])
  {
    hide DoLand;
    BackedLanding(FileStored(), 0, true);
  }

  function FirstAsked(): seq<Step> { [Arrive(0, FileCreate, 0, 1)] }

  function FirstGranted(): seq<Step> { FirstAsked() + AllReads(0, 0) + [TryReserve(0, 0, 600)] }

  function FirstFunded(): seq<Step> { FirstGranted() + AllReads(0, 0) + [TryReserve(0, 0, 600)] }

  /** The first request up to the point where its object is stored. */
  function FirstStored(): seq<Step> { FirstFunded() + [StageUpload(0)] + [StoreObject(0)] }

  lemma ReadsZero(s: State, u: UserId)
    requires s.secrets.Keys == {} && s.files.Keys == {} && s.outbox.Keys == {} && s.landed == {}
    ensures FreshRead(s, u) == Reader(u, 3, Zero(), {}, {}, Zero())
  {
    hide Durable;
    NoRows(s.secrets, s.files, s.outbox, u);
  }

  lemma FirstIsGranted()
    ensures Leads(Start(), FirstGranted(), FileGranted())
  {
    hide Leads, DoReserve, FreshRead, FileGranted;
    LeadsNowhere(Start());
    LeadsOn(Start(), [], Start(), Arrive(0, FileCreate, 0, 1));
    assert DoArrive(Start(), 0, FileCreate, 0, 1) == FileAsked();
    assert [] + FirstAsked() == FirstAsked();
    ReadsZero(FileAsked(), 0);
    AtomicRead(Start(), FirstAsked(), FileAsked(), 0, 0);
    FileReserves();
    LeadsOn(Start(), FirstAsked() + AllReads(0, 0), ReadBy(FileAsked(), 0, Seen(0, {}, 0)), TryReserve(0, 0, 600));
  }

  lemma FirstIsFunded()
    ensures Leads(Start(), FirstFunded(), Uploading(Funded, map[], {}))
  {
    hide Leads, DoReserve, FreshRead, Uploading, FirstGranted;
    FirstIsGranted();
    ReadsZero(FileGranted(), 0);
    AtomicRead(Start(), FirstGranted(), FileGranted(), 0, 0);
    FileReservesBytes();
    LeadsOn(Start(), FirstGranted() + AllReads(0, 0), ReadBy(FileGranted(), 0, Seen(0, {}, 0)), TryReserve(0, 0, 600));
  }

  lemma FirstIsStored()
    ensures Leads(Start(), FirstStored(), FileStored())
  {
    hide Leads, DoStage, DoStore, Uploading, FileStored, FirstFunded;
    FirstIsFunded();
    FileStages();
    LeadsOn(Start(), FirstFunded(), Uploading(Funded, map[], {}), StageUpload(0));
    FileStores();
    LeadsOn(Start(), FirstFunded() + [StageUpload(0)], Uploading(Staged, map[0 := 0], {}), StoreObject(0));
  }

  // ---------- The administrator's version ----------

  /** The byte of the second request is reserved for user 1. */
  function Lent(phase: Phase, pending: map<nat, UserId>, objects: set<nat>): State {
    AtFiles(LentKeys(), map[0 := Owned(0)], map[0 := FileRow(0, 1)], pending, objects,
            map[0 := Creation(Landed), 1 := Addition(phase)], {0}, map[0 := Zero(), 1 := Zero()])
  }

  function LentKeys(): Redis {
    Redis(map[0 := Amount(1, 1), 1 := Amount(0, 1)],
          Holding()[Rid(1, Bytes) := Hold(1, Amount(0, 1), false)], Expiring()[Rid(1, Bytes) := 600])
  }

  function Overloaded(): State {
    AtFiles(LentKeys(), map[0 := Owned(0)], map[0 := FileRow(0, 1), 1 := FileRow(0, 1)], map[], {0, 1},
            map[0 := Creation(Landed), 1 := Addition(Landed)], {0, 1}, map[0 := Amount(0, 1), 1 := Zero()])
  }

  function SecondAsked(): State { FileLanded(map[0 := Creation(Landed), 1 := Addition(Begun)]) }

  function SeenByOther(): Reader { Reader(1, 3, Zero(), {0}, {0}, Zero()) }

  lemma OtherOwnsNothing()
    ensures FreshRead(SecondAsked(), 1) == SeenByOther()
  {
    hide Total, ActiveFiles, QueuedFiles;
    var s := SecondAsked();
    ActiveFilesAre(s.secrets, s.files, 1);
    QueuedFilesAre(s.outbox, 1);
    TotalEmpty(ActiveFiles(s.secrets, s.files, 1));
    TotalEmpty(QueuedFiles(s.outbox, 1));
    assert OwnedSecrets(s.secrets, 1) == {};
  }

  lemma AdditionReserves()
    ensures
      var s := ReadBy(SecondAsked(), 0, SeenByOther());
      Enabled(s, TryReserve(0, 1, 600)) && DoReserve(s, 0, 1, 600) == Lent(Funded, map[], {0})
  {
    hide DoReserve;
    GrantedReserve(ReadBy(SecondAsked(), 0, SeenByOther()), 0, 1, 600);
  }

  lemma AdditionStages()
    ensures Enabled(Lent(Funded, map[], {0}), StageUpload(1))
    ensures DoStage(Lent(Funded, map[], {0}), 1) == Lent(Staged, map[1 := 1], {0})
  {
  }

  lemma AdditionStores()
    ensures Enabled(Lent(Staged, map[1 := 1], {0}), StoreObject(1))
    ensures DoStore(Lent(Staged, map[1 := 1], {0}), 1) == Lent(Stored, map[1 := 1], {0, 1})
  {
  }

  lemma AdditionLands()
    ensures
      var s := Lent(Stored, map[1 := 1], {0, 1});
      CanLand(s, 1) && DoLand(s, 1, true) == Overloaded()
  {
    hide DoLand, CanLand, Payer, Stray, LandedSecrets, LandedFiles, At, Lent, Overloaded;
    AdditionKeeps();
    AdditionIsForeign();
    UnreadLanding(Lent(Stored, map[1 := 1], {0, 1}), 1, 0);
    AdditionSecrets();
    AdditionFiles();
    AdditionPending();
    AdditionJobs();
    AdditionDebt();
  }

  lemma AdditionIsForeign()
    ensures
      var s := Lent(Stored, map[1 := 1], {0, 1});
      CanLand(s, 1) && Payer(s, 1) == Owned(0) && Stray(s, 1) == Amount(0, 1)
  {
  }

  lemma AdditionKeeps()
    ensures
      var s, s' := Lent(Stored, map[1 := 1], {0, 1}), Overloaded();
      && s.redis == s'.redis && s.outbox == s'.outbox && s.objects == s'.objects && s.gone == s'.gone
      && s.readers == s'.readers && s.readers.Keys == {} && s.sweeping == s'.sweeping && s.limits == s'.limits
      && s.landed + {1} == s'.landed && s.doubled == s'.doubled
  {
  }

  lemma AdditionSecrets()
    ensures
      var s, s' := Lent(Stored, map[1 := 1], {0, 1}), Overloaded();
      LandedSecrets(s.secrets, 1, s.jobs[1]) == s'.secrets
  {
  }

  lemma AdditionFiles()
    ensures
      var s, s' := Lent(Stored, map[1 := 1], {0, 1}), Overloaded();
      LandedFiles(s.files, 1, s.jobs[1]) == s'.files
  {
  }

  lemma AdditionPending()
    ensures
      var s, s' := Lent(Stored, map[1 := 1], {0, 1}), Overloaded();
      s.pending - {1} == s'.pending
  {
  }

  lemma AdditionJobs()
    ensures
      var s, s' := Lent(Stored, map[1 := 1], {0, 1}), Overloaded();
      s.jobs[1 := s.jobs[1].(phase := Landed)] == s'.jobs
  {
  }

  lemma AdditionDebt()
    ensures
      var s, s' := Lent(Stored, map[1 := 1], {0, 1}), Overloaded();
      && s.excess == s.debt && s'.excess == s'.debt
      && At(s.debt, 0).Plus(Amount(0, 1)) == Amount(0, 1) && s.debt[0 := Amount(0, 1)] == s'.debt
  {
    ReplaceFirst(Lent(Stored, map[1 := 1], {0, 1}).debt, Amount(0, 1));
  }

  lemma ReplaceFirst(owed: map<UserId, Amount>, v: Amount)
    requires owed.Keys == {0, 1} && owed[1] == Zero()
    ensures owed[0 := v] == map[0 := v, 1 := Zero()]
  {
  }

  /** A landing that is charged to an owner while nobody reads usage, field by field. */
  lemma UnreadLanding(s: State, j: nat, owner: UserId)
    requires CanLand(s, j) && Payer(s, j) == Owned(owner) && s.readers.Keys == {}
    ensures
      var job, stray := s.jobs[j], Stray(s, j);
      DoLand(s, j, true) == Advance(s, j, Landed).(
        secrets := LandedSecrets(s.secrets, j, job),
        files := LandedFiles(s.files, j, job),
        pending := s.pending - {j},
        landed := s.landed + {j},
        debt := s.debt[owner := At(s.debt, owner).Plus(stray)],
        excess := s.excess[owner := At(s.excess, owner).Plus(stray)])
  {
    hide StrayAll, Payer, Stray, LandedSecrets, LandedFiles;
    NobodyReads(s.readers, Payer(s, j), Stray(s, j));
  }

  lemma NobodyReads(readers: map<nat, Reader>, payer: Owner, stray: Amount)
    requires readers.Keys == {}
    ensures StrayAll(readers, payer, stray) == readers
  {
  }

  function SecondFunded(): seq<Step> {
    FirstStored() + [Land(0, true)] + [Arrive(1, FileUpdate(0), 1, 1)] + AllReads(0, 1) + [TryReserve(0, 1, 600)]
  }

  /** The owner's file is committed, then the administrator's version. */
  function ForeignUpdate(): seq<Step> {
    SecondFunded() + [StageUpload(1)] + [StoreObject(1)] + [Land(1, true)]
  }

  lemma SecondIsFunded()
    ensures Leads(Start(), SecondFunded(), Lent(Funded, map[], {0}))
  {
    hide Leads, DoReserve, DoLand, FreshRead, FirstStored, FileStored, Lent;
    FirstIsStored();
    FileLands();
    LeadsOn(Start(), FirstStored(), FileStored(), Land(0, true));
    var landed := FirstStored() + [Land(0, true)];
    LeadsOn(Start(), landed, FileLanded(map[0 := Creation(Landed)]), Arrive(1, FileUpdate(0), 1, 1));
    assert DoArrive(FileLanded(map[0 := Creation(Landed)]), 1, FileUpdate(0), 1, 1) == SecondAsked();
    OtherOwnsNothing();
    var asked := landed + [Arrive(1, FileUpdate(0), 1, 1)];
    AtomicRead(Start(), asked, SecondAsked(), 0, 1);
    AdditionReserves();
    LeadsOn(Start(), asked + AllReads(0, 1), ReadBy(SecondAsked(), 0, SeenByOther()), TryReserve(0, 1, 600));
  }

  lemma BothAreStored()
    ensures Leads(Start(), ForeignUpdate(), Overloaded())
  {
    hide Leads, DoStage, DoStore, DoLand, SecondFunded, Lent, Overloaded;
    SecondIsFunded();
    AdditionStages();
    LeadsOn(Start(), SecondFunded(), Lent(Funded, map[], {0}), StageUpload(1));
    AdditionStores();
    LeadsOn(Start(), SecondFunded() + [StageUpload(1)], Lent(Staged, map[1 := 1], {0}), StoreObject(1));
    AdditionLands();
    LeadsOn(Start(), SecondFunded() + [StageUpload(1)] + [StoreObject(1)], Lent(Stored, map[1 := 1], {0, 1}),
            Land(1, true));
  }

  lemma BytesOfTwo(secrets: map<nat, Owner>, files: map<nat, FileRow>, u: UserId)
    requires 0 in secrets && secrets[0] == Owned(u)
    requires files.Keys == {0, 1} && files[0] == FileRow(0, 1) && files[1] == FileRow(0, 1)
    ensures Total(ActiveFiles(secrets, files, u)) == Amount(0, 2)
  {
    hide Total, ActiveFiles;
    var m := ActiveFiles(secrets, files, u);
    ActiveFilesAre(secrets, files, u);
    assert 0 in m && 1 in m;
    assert m.Keys - {0} - {1} == {};
    TotalOfTwo(m, 0, 1);
  }

  lemma TwoBytes()
    ensures Durable(Overloaded().secrets, Overloaded().files, Overloaded().outbox, 0) == Amount(1, 2)
  {
    hide Total, ActiveFiles, QueuedFiles;
    var s := Overloaded();
    BytesOfTwo(s.secrets, s.files, 0);
    QueuedFilesAre(s.outbox, 0);
    TotalEmpty(QueuedFiles(s.outbox, 0));
    assert OwnedSecrets(s.secrets, 0) == {0};
  }

  lemma EverythingLanded(s: State, u: UserId)
    requires forall rid :: rid in s.redis.holds ==> rid.request in s.landed
    ensures Total(Unlanded(s.redis.holds, s.landed, u)) == Zero()
  {
    hide Total, Unlanded;
    UnlandedAre(s.redis.holds, s.landed, u);
    TotalEmpty(Unlanded(s.redis.holds, s.landed, u));
  }

  lemma OverloadedLoad()
    ensures Load(Overloaded(), 0) == Amount(1, 2)
  {
    hide Durable, Unlanded, Total;
    EverythingLanded(Overloaded(), 0);
    TwoBytes();
  }

  /** A limit of one byte, and two bytes of usage after a run in which the administrator adds a version. */
  lemma ForeignUpdateBreaksTheLimit()
    ensures Legal(Start(), ForeignUpdate())
    ensures
      var s := Run(Start(), ForeignUpdate());
      Limit(s.limits, 0) == Amount(1, 1) && Load(s, 0) == Amount(1, 2) && At(s.excess, 0) == Amount(0, 1)
  {
    hide Legal, Run, ForeignUpdate, Load;
    BothAreStored();
    OverloadedLoad();
  }
}
