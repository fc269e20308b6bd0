/** Quota safety over whole runs, and the runs on which it fails. */
module QuotaRuns {
  import opened Amounts
  import opened QuotaScripts
  import opened Backend
  import opened UsageSums
  import opened Shapes
  import opened QuotaSafety

  /** The steps are a run from s to s'. */
  ghost predicate Leads(s: State, steps: seq<Step>, s': State) {
    Legal(s, steps) && Run(s, steps) == s'
  }

  lemma {:induction false} RunThenStep(s: State, steps: seq<Step>, step: Step)
    requires Legal(s, steps) && Enabled(Run(s, steps), step)
    ensures Legal(s, steps + [step]) && Run(s, steps + [step]) == Apply(Run(s, steps), step)
    decreases |steps|
  {
    hide Apply, Enabled;
    var all := steps + [step];
    if steps == [] {
      assert all[1..] == [];
    } else {
      assert all[1..] == steps[1..] + [step];
      RunThenStep(Apply(s, steps[0]), steps[1..], step);
    }
  }

  lemma LeadsOn(s: State, steps: seq<Step>, s': State, step: Step)
    requires Leads(s, steps, s') && Enabled(s', step)
    ensures Leads(s, steps + [step], Apply(s', step))
  {
    hide Apply, Enabled;
    RunThenStep(s, steps, step);
  }

  lemma {:induction false} RunSplit(s: State, a: seq<Step>, b: seq<Step>)
    requires Legal(s, a + b)
    ensures Legal(s, a) && Legal(Run(s, a), b) && Run(s, a + b) == Run(Run(s, a), b)
    decreases |a|
  {
    hide Enabled, Apply;
    if a == [] {
      assert a + b == b;
    } else {
      assert (a + b)[1..] == a[1..] + b;
      RunSplit(Apply(s, a[0]), a[1..], b);
    }
  }

  lemma {:induction false} RunJoin(s: State, a: seq<Step>, b: seq<Step>)
    requires Legal(s, a) && Legal(Run(s, a), b)
    ensures Legal(s, a + b) && Run(s, a + b) == Run(Run(s, a), b)
    decreases |a|
  {
    hide Enabled, Apply;
    if a == [] {
      assert a + b == b;
    } else {
      assert (a + b)[1..] == a[1..] + b;
      RunJoin(Apply(s, a[0]), a[1..], b);
    }
  }

  /** In every reachable state a counter covers its user's load up to the debt, and the load is within the limit up to
      the excess, for secrets and bytes alike. */
  lemma {:induction false} QuotaOverRuns(s: State, steps: seq<Step>)
    requires Shape(s) && QuotaInv(s) && Legal(s, steps)
    ensures Shape(Run(s, steps)) && QuotaInv(Run(s, steps))
    decreases |steps|
  {
    hide Shape, QuotaInv;
    if steps != [] {
      StepKeepsShape(s, steps[0]);
      StepKeepsQuota(s, steps[0]);
      QuotaOverRuns(Apply(s, steps[0]), steps[1..]);
    }
  }

  lemma StepKeepsQuota(s: State, step: Step)
    requires Shape(s) && Enabled(s, step) && QuotaInv(s)
    ensures QuotaInv(Apply(s, step))
  {
    hide Shape, Covers, Bounded, AllTrack, Apply, Enabled;
    StepKeepsTracks(s, step);
    forall u ensures Covers(Apply(s, step), u) && Bounded(Apply(s, step), u) {
      StepKeepsUser(s, step, u);
    }
  }

  lemma EmptyIsGood(limits: map<UserId, Amount>)
    requires forall u :: u in limits ==> Zero().Leq(limits[u])
    ensures Shape(Empty(limits)) && QuotaInv(Empty(limits)) && Clean(Empty(limits))
  {
    hide Load, Limit, Total, Twice;
    var s := Empty(limits);
    assert Shape(s);
    forall u ensures Covers(s, u) && Bounded(s, u) {
      EmptyLoad(limits, u);
      EmptyLimit(limits, u);
    }
  }

  lemma NoRows(secrets: map<nat, Owner>, files: map<nat, FileRow>, outbox: map<nat, OutboxRow>, u: UserId)
    requires secrets.Keys == {} && files.Keys == {} && outbox.Keys == {}
    ensures Durable(secrets, files, outbox, u) == Zero()
  {
    hide Total, ActiveFiles, QueuedFiles;
    ActiveFilesAre(secrets, files, u);
    QueuedFilesAre(outbox, u);
    TotalEmpty(ActiveFiles(secrets, files, u));
    TotalEmpty(QueuedFiles(outbox, u));
    assert OwnedSecrets(secrets, u) == {};
  }

  lemma NoHolds(holds: map<ReservationId, Hold>, landed: set<nat>, u: UserId)
    requires holds.Keys == {}
    ensures Total(Unlanded(holds, landed, u)) == Zero()
  {
    hide Total, Unlanded;
    UnlandedAre(holds, landed, u);
    TotalEmpty(Unlanded(holds, landed, u));
  }

  lemma NothingToLoad(s: State, u: UserId)
    requires s.secrets.Keys == {} && s.files.Keys == {} && s.outbox.Keys == {} && s.redis.holds.Keys == {}
    ensures Load(s, u) == Zero()
  {
    hide Total, Durable, Unlanded;
    NoRows(s.secrets, s.files, s.outbox, u);
    NoHolds(s.redis.holds, s.landed, u);
  }

  lemma EmptyLoad(limits: map<UserId, Amount>, u: UserId)
    ensures Load(Empty(limits), u) == Zero()
  {
    hide Load;
    NothingToLoad(Empty(limits), u);
  }

  lemma EmptyLimit(limits: map<UserId, Amount>, u: UserId)
    requires forall v :: v in limits ==> Zero().Leq(limits[v])
    ensures Zero().Leq(Limit(Empty(limits).limits, u))
  {
  }

  // ---------- Runs without hazards ----------

  /** The three ways in which usage can escape its counter: a reservation is undone while its request still relies on
      it, or after its transaction has committed and without being counted twice; a reconciliation writes a usage read
      that has missed something; a version is charged to another user than the one who reserved. */
  predicate Hazard(s: State, step: Step)
    requires Enabled(s, step)
  {
    match step
    case DoRelease(rid) =>
      || (rid.request in s.landed && rid !in s.doubled)
      || (rid.request in s.jobs && s.jobs[rid.request].Reserved(rid.charge))
    case DoReconcile(r) => s.readers[r].miss != Zero()
    case Land(j, _) => Payer(s, j) != Owned(s.jobs[j].user)
    case _ => false
  }

  ghost predicate OwesNothing(debt: map<UserId, Amount>, excess: map<UserId, Amount>) {
    forall u :: At(debt, u) == Zero() && At(excess, u) == Zero()
  }

  ghost predicate LiveHoldReservations(jobs: map<nat, Job>, holds: map<ReservationId, Hold>) {
    forall j, d :: j in jobs && jobs[j].Reserved(d) ==> ReservationId(j, d) in holds
  }

  /** A read for a user without a counter has missed nothing, so the counter it may initialize is sound. */
  ghost predicate AbsentMissNothing(readers: map<nat, Reader>, usage: map<UserId, Amount>) {
    forall r :: r in readers && readers[r].user !in usage ==> readers[r].miss == Zero()
  }

  /** Nothing is owed, and every live request still has the reservations it relies on. */
  ghost predicate Clean(s: State) {
    && OwesNothing(s.debt, s.excess)
    && LiveHoldReservations(s.jobs, s.redis.holds)
    && AbsentMissNothing(s.readers, s.redis.usage)
  }

  ghost predicate Harmless(s: State, steps: seq<Step>)
    requires Legal(s, steps)
    decreases |steps|
  {
    steps != [] ==> !Hazard(s, steps[0]) && Harmless(Apply(s, steps[0]), steps[1..])
  }

  lemma CleanLandIsBacked(s: State, j: nat)
    requires Clean(s) && CanLand(s, j) && Payer(s, j) == Owned(s.jobs[j].user)
    ensures Stray(s, j) == Zero()
  {
    var job := s.jobs[j];
    assert job.Reserved(Secrets) ==> ReservationId(j, Secrets) in s.redis.holds;
    assert job.Reserved(Bytes) ==> ReservationId(j, Bytes) in s.redis.holds;
  }

  lemma OweNothingMore(debt: map<UserId, Amount>, excess: map<UserId, Amount>, u: UserId, debt': map<UserId, Amount>,
                       excess': map<UserId, Amount>)
    requires OwesNothing(debt, excess)
    requires debt' == debt || debt' == debt[u := Zero()]
    requires excess' == excess || excess' == excess[u := Zero()]
    ensures OwesNothing(debt', excess')
  {
    forall v ensures At(debt', v) == Zero() && At(excess', v) == Zero() {
      OwedZero(debt, excess, v);
    }
  }

  lemma CleanReserve(s: State, r: nat, j: nat, at: int)
    requires Clean(s) && Enabled(s, TryReserve(r, j, at))
    ensures Clean(DoReserve(s, r, j, at))
  {
    hide Ask, Limit, OwesNothing;
    AskEffect(s, r, j, at);
    var s', u := DoReserve(s, r, j, at), s.jobs[j].user;
    assert At(s.debt, u) == Zero() && At(s.excess, u) == Zero() by { OwedZero(s.debt, s.excess, u); }
    OweNothingMore(s.debt, s.excess, u, s'.debt, s'.excess);
  }

  lemma OwedZero(debt: map<UserId, Amount>, excess: map<UserId, Amount>, u: UserId)
    requires OwesNothing(debt, excess)
    ensures At(debt, u) == Zero() && At(excess, u) == Zero()
  {
  }

  lemma StrayNothing(readers: map<nat, Reader>, payer: Owner, usage: map<UserId, Amount>)
    requires AbsentMissNothing(readers, usage)
    ensures AbsentMissNothing(StrayAll(readers, payer, Zero()), usage)
  {
    hide StrayAll;
  }

  lemma CleanLand(s: State, j: nat, reported: bool)
    requires Clean(s) && CanLand(s, j) && !Hazard(s, Land(j, reported))
    ensures Clean(DoLand(s, j, reported))
  {
    hide Stray, StrayAll, LandedSecrets, LandedFiles, OwesNothing, AbsentMissNothing;
    CleanLandIsBacked(s, j);
    var s', u := DoLand(s, j, reported), s.jobs[j].user;
    OwedZero(s.debt, s.excess, u);
    OweNothingMore(s.debt, s.excess, u, s'.debt, s'.excess);
    StrayNothing(s.readers, Payer(s, j), s.redis.usage);
  }

  lemma CleanReconcile(s: State, r: nat)
    requires Clean(s) && r in s.readers && s.readers[r].miss == Zero()
    ensures Clean(RunReconcile(s, r))
  {
    hide LiveHoldReservations, Owed, Recounted, OwesNothing;
    var s' := RunReconcile(s, r);
    OweNothingMore(s.debt, s.excess, s.readers[r].user, s'.debt, s'.excess);
  }

  lemma SettleAbsent(readers: map<nat, Reader>, usage: map<UserId, Amount>, j: nat, u: UserId, delta: Amount)
    requires AbsentMissNothing(readers, usage) && u in usage
    ensures AbsentMissNothing(SettleAllReaders(readers, j, u, delta), usage)
  {
    hide SettleAllReaders;
  }

  lemma MoreUsageAbsent(readers: map<nat, Reader>, usage: map<UserId, Amount>, usage': map<UserId, Amount>)
    requires AbsentMissNothing(readers, usage) && usage.Keys <= usage'.Keys
    ensures AbsentMissNothing(readers, usage')
  {
  }

  lemma UnreliedIsSpare(jobs: map<nat, Job>, holds: map<ReservationId, Hold>, rid: ReservationId)
    requires LiveHoldReservations(jobs, holds)
    requires rid.request in jobs ==> !jobs[rid.request].Reserved(rid.charge)
    ensures LiveHoldReservations(jobs, holds - {rid})
  {
  }

  lemma CleanRelease(s: State, rid: ReservationId)
    requires Shape(s) && Clean(s) && rid in s.redis.holds && !Hazard(s, DoRelease(rid))
    ensures Clean(Unreserve(s, rid))
  {
    hide OwesNothing, LiveHoldReservations, AbsentMissNothing, SettleAllReaders;
    hide PhasesFit, RowsFit, PendingFits, ReadersFit, DoublesFit;
    var hold := s.redis.holds[rid];
    UnreliedIsSpare(s.jobs, s.redis.holds, rid);
    SettleAbsent(s.readers, s.redis.usage, rid.request, hold.user, hold.delta);
    MoreUsageAbsent(Unreserve(s, rid).readers, s.redis.usage, Release(s.redis, hold.user, rid).usage);
  }

  lemma CleanCommit(s: State, rid: ReservationId)
    requires Shape(s) && Clean(s) && Enabled(s, DoCommit(rid))
    ensures Clean(SettleHold(s, rid))
  {
    hide OwesNothing, LiveHoldReservations, AbsentMissNothing, SettleAllReaders;
    hide PhasesFit, RowsFit, PendingFits, ReadersFit, DoublesFit;
    var hold := s.redis.holds[rid];
    UnreliedIsSpare(s.jobs, s.redis.holds, rid);
    SettleAbsent(s.readers, s.redis.usage, rid.request, hold.user, hold.delta);
  }

  lemma CleanUpload(s: State, step: Step)
    requires Clean(s) && Enabled(s, step)
    requires step.Arrive? || step.StageUpload? || step.StoreObject? || step.Fail? || step.Crash?
    ensures Clean(Apply(s, step))
  {
    hide OwesNothing, AbsentMissNothing;
  }

  lemma CleanReading(s: State, step: Step)
    requires Clean(s) && Enabled(s, step) && (step.StartRead? || step.Read?)
    ensures Clean(Apply(s, step))
  {
    hide OwesNothing, LiveHoldReservations, Total, OwnedSecrets, ActiveFiles, QueuedFiles;
  }

  lemma CleanOther(s: State, step: Step)
    requires Clean(s) && Enabled(s, step)
    requires
      || step.DeleteOwnObject? || step.DeleteSecret? || step.EraseQueued?
      || step.MarkProcessed? || step.Fetch? || step.EraseFetched? || step.DropPending? || step.DeleteUser?
    ensures Clean(Apply(s, step))
  {
    hide OwesNothing, LiveHoldReservations, AbsentMissNothing, Remaining, Enqueued, WithoutOwner, WithoutPayer;
  }

  lemma CleanStep(s: State, step: Step)
    requires Shape(s) && Clean(s) && Enabled(s, step) && !Hazard(s, step)
    ensures Clean(Apply(s, step))
  {
    hide Clean, Shape;
    match step
    case TryReserve(r, j, at) => CleanReserve(s, r, j, at);
    case Land(j, reported) => CleanLand(s, j, reported);
    case DoReconcile(r) => CleanReconcile(s, r);
    case DoRelease(rid) => CleanRelease(s, rid);
    case DoCommit(rid) => CleanCommit(s, rid);
    case StartRead(_, _) => CleanReading(s, step);
    case Read(_) => CleanReading(s, step);
    case Arrive(_, _, _, _) => CleanUpload(s, step);
    case StageUpload(_) => CleanUpload(s, step);
    case StoreObject(_) => CleanUpload(s, step);
    case Fail(_) => CleanUpload(s, step);
    case Crash(_) => CleanUpload(s, step);
    case _ => CleanOther(s, step);
  }

  lemma {:induction false} CleanOverRuns(s: State, steps: seq<Step>)
    requires Shape(s) && Clean(s) && Legal(s, steps) && Harmless(s, steps)
    ensures Clean(Run(s, steps)) && Run(s, steps).limits == s.limits
    decreases |steps|
  {
    hide Shape, Clean;
    if steps != [] {
      StepKeepsShape(s, steps[0]);
      CleanStep(s, steps[0]);
      LimitsAreFixed(s, steps[0]);
      CleanOverRuns(Apply(s, steps[0]), steps[1..]);
    }
  }

  lemma LimitsAreFixed(s: State, step: Step)
    requires Enabled(s, step)
    ensures Apply(s, step).limits == s.limits
  {
    hide Total, Ask, ReadOn, Stray, StrayAll, SettleAllReaders, Release, Commit, Reconcile, Enqueued, Remaining;
  }

  /** Without hazards no load ever exceeds its limit. */
  lemma LimitHolds(s: State, steps: seq<Step>, u: UserId)
    requires Shape(s) && QuotaInv(s) && Clean(s) && Legal(s, steps) && Harmless(s, steps)
    ensures Load(Run(s, steps), u).Leq(Limit(s.limits, u))
  {
    hide Shape, Load, LiveHoldReservations, Limit, AllTrack, Covers;
    QuotaOverRuns(s, steps);
    CleanOverRuns(s, steps);
    assert Bounded(Run(s, steps), u);
  }

  /** From the empty backend: the counter covers the load up to the debt, and the load stays within the limit up to the
      excess. */
  lemma QuotaFromEmpty(limits: map<UserId, Amount>, steps: seq<Step>, u: UserId)
    requires forall v :: v in limits ==> Zero().Leq(limits[v])
    requires Legal(Empty(limits), steps)
    ensures Covers(Run(Empty(limits), steps), u) && Bounded(Run(Empty(limits), steps), u)
  {
    hide Shape, Covers, Bounded, AllTrack, Legal, Run;
    EmptyIsGood(limits);
    QuotaOverRuns(Empty(limits), steps);
    CoversUser(Run(Empty(limits), steps), u);
  }

  lemma AbsentReadCoversLoad(s: State, r: nat)
    requires Shape(s) && QuotaInv(s) && Clean(s)
    requires r in s.readers && s.readers[r].progress == 3 && s.readers[r].user !in s.redis.usage
    ensures Load(s, s.readers[r].user).Leq(s.readers[r].snap)
  {
    hide Shape, Covers, Bounded, OwesNothing, LiveHoldReservations, Durable, Unlanded, Backed, Total, Twice;
    var rd := s.readers[r];
    AbsentUserHoldsNothing(s, rd.sawSecrets, rd.user);
    AbsentUserHoldsNothing(s, rd.sawFiles, rd.user);
    assert Tracks(rd, s.redis.holds, s.landed, s.secrets, s.files, s.outbox);
    assert rd.miss == Zero();
  }

  /** Without hazards, the usage read from which the reserve script creates a missing counter covers the user's load,
      however long ago its statements ran. */
  lemma InitialCounterIsSound(limits: map<UserId, Amount>, steps: seq<Step>, r: nat)
    requires forall v :: v in limits ==> Zero().Leq(limits[v])
    requires Legal(Empty(limits), steps) && Harmless(Empty(limits), steps)
    requires
      var s := Run(Empty(limits), steps);
      r in s.readers && s.readers[r].progress == 3 && s.readers[r].user !in s.redis.usage
    ensures
      var s := Run(Empty(limits), steps);
      Load(s, s.readers[r].user).Leq(s.readers[r].snap)
  {
    hide Shape, QuotaInv, Clean, Load, Legal, Run, Harmless;
    EmptyIsGood(limits);
    QuotaOverRuns(Empty(limits), steps);
    CleanOverRuns(Empty(limits), steps);
    AbsentReadCoversLoad(Run(Empty(limits), steps), r);
  }

  // ---------- Hazards that a schedule can avoid ----------

  /** The usage reads that a reconciliation must not use: those during which a landed reservation of their user was
      settled. */
  function Noise(s: State, step: Step, noisy: set<nat>): set<nat>
    requires Enabled(s, step)
  {
    match step
    case StartRead(r, _) => noisy - {r}
    case DoCommit(rid) => noisy + ReadersOf(s.readers, s.redis.holds[rid].user)
    case DoRelease(rid) =>
      if rid.request in s.landed then noisy + ReadersOf(s.readers, s.redis.holds[rid].user) else noisy
    case _ => noisy
  }

  function ReadersOf(readers: map<nat, Reader>, u: UserId): set<nat> {
    set r | r in readers && readers[r].user == u
  }

  /** What a schedule has to see to: nobody undoes a reservation that a request relies on; a landed one is undone only
      once a reconciliation has counted it with a read that saw it landed; reconciliations use undisturbed reads; and
      versions are landed by the owner of their secret. */
  predicate Proper(s: State, step: Step, noisy: set<nat>)
    requires Enabled(s, step)
  {
    match step
    case DoRelease(rid) =>
      && (rid.request in s.landed ==> rid in s.doubled)
      && !(rid.request in s.jobs && s.jobs[rid.request].Reserved(rid.charge))
    case DoReconcile(r) => r !in noisy
    case Land(j, _) => Payer(s, j) == Owned(s.jobs[j].user)
    case _ => true
  }

  ghost predicate Calm(s: State, steps: seq<Step>, noisy: set<nat>)
    requires Legal(s, steps)
    decreases |steps|
  {
    steps != [] ==> Proper(s, steps[0], noisy) && Calm(Apply(s, steps[0]), steps[1..], Noise(s, steps[0], noisy))
  }

  ghost predicate MissOnlyNoise(readers: map<nat, Reader>, noisy: set<nat>) {
    forall r :: r in readers && r !in noisy ==> readers[r].miss == Zero()
  }

  lemma ProperIsNoHazard(s: State, step: Step, noisy: set<nat>)
    requires Enabled(s, step) && Proper(s, step, noisy) && MissOnlyNoise(s.readers, noisy)
    ensures !Hazard(s, step)
  {
  }

  lemma SettlingIsNoise(s: State, rid: ReservationId, noisy: set<nat>)
    requires rid in s.redis.holds && MissOnlyNoise(s.readers, noisy)
    ensures
      var hold := s.redis.holds[rid];
      MissOnlyNoise(SettleAllReaders(s.readers, rid.request, hold.user, hold.delta),
                    noisy + ReadersOf(s.readers, hold.user))
  {
    hide SettleAllReaders;
  }

  lemma StrayingIsSilent(readers: map<nat, Reader>, payer: Owner, noisy: set<nat>)
    requires MissOnlyNoise(readers, noisy)
    ensures MissOnlyNoise(StrayAll(readers, payer, Zero()), noisy)
  {
    hide StrayAll;
  }

  lemma ReadingIsSilent(s: State, step: Step, noisy: set<nat>)
    requires Enabled(s, step) && (step.StartRead? || step.Read?) && MissOnlyNoise(s.readers, noisy)
    ensures MissOnlyNoise(Apply(s, step).readers, Noise(s, step, noisy))
  {
    hide Total, OwnedSecrets, ActiveFiles, QueuedFiles;
  }

  lemma OthersAreSilent(s: State, step: Step, noisy: set<nat>)
    requires Enabled(s, step) && MissOnlyNoise(s.readers, noisy)
    requires !step.StartRead? && !step.Read? && !step.Land? && !step.DoCommit? && !step.DoRelease?
    ensures MissOnlyNoise(Apply(s, step).readers, Noise(s, step, noisy))
  {
    hide Ask, Owed, Recounted, Remaining, Enqueued, WithoutOwner, WithoutPayer;
  }

  lemma MissStaysNoise(s: State, step: Step, noisy: set<nat>)
    requires Clean(s) && Enabled(s, step) && Proper(s, step, noisy) && MissOnlyNoise(s.readers, noisy)
    ensures MissOnlyNoise(Apply(s, step).readers, Noise(s, step, noisy))
  {
    hide MissOnlyNoise, SettleAllReaders, StrayAll, Stray, LandedSecrets, LandedFiles, Clean;
    match step
    case DoCommit(rid) => SettlingIsNoise(s, rid, noisy);
    case DoRelease(rid) => SettlingIsNoise(s, rid, noisy);
    case Land(j, _) =>
      CleanLandIsBacked(s, j);
      StrayingIsSilent(s.readers, Payer(s, j), noisy);
    case StartRead(_, _) => ReadingIsSilent(s, step, noisy);
    case Read(_) => ReadingIsSilent(s, step, noisy);
    case _ => OthersAreSilent(s, step, noisy);
  }

  lemma {:induction false} CalmIsHarmless(s: State, steps: seq<Step>, noisy: set<nat>)
    requires Shape(s) && Clean(s) && MissOnlyNoise(s.readers, noisy)
    requires Legal(s, steps) && Calm(s, steps, noisy)
    ensures Harmless(s, steps)
    decreases |steps|
  {
    hide Shape, Clean, MissOnlyNoise, Hazard, Proper, Noise, Enabled, Apply;
    if steps != [] {
      ProperIsNoHazard(s, steps[0], noisy);
      StepKeepsShape(s, steps[0]);
      CleanStep(s, steps[0]);
      MissStaysNoise(s, steps[0], noisy);
      CalmIsHarmless(Apply(s, steps[0]), steps[1..], Noise(s, steps[0], noisy));
    }
  }

  /** On every calm schedule from the empty backend, no load ever exceeds its limit. */
  lemma LimitHoldsOnSchedule(limits: map<UserId, Amount>, steps: seq<Step>, u: UserId)
    requires forall v :: v in limits ==> Zero().Leq(limits[v])
    requires Legal(Empty(limits), steps) && Calm(Empty(limits), steps, {})
    ensures Load(Run(Empty(limits), steps), u).Leq(Limit(limits, u))
  {
    hide Shape, QuotaInv, Clean, Load, Limit, Legal, Run, Calm, Harmless;
    EmptyIsGood(limits);
    CalmIsHarmless(Empty(limits), steps, {});
    LimitHolds(Empty(limits), steps, u);
  }

  /** A commit that failed is made good by a reconciliation whose read saw the transaction landed: undoing the
      reservation later is then no hazard. */
  lemma RecoveryIsHarmless(s: State, r: nat, rid: ReservationId)
    requires Shape(s) && Enabled(s, DoReconcile(r)) && rid in s.redis.holds
    requires s.redis.holds[rid].user == s.readers[r].user && rid.request in s.readers[r].sawSecrets
    ensures
      var s' := Apply(s, DoReconcile(r));
      Enabled(s', DoRelease(rid)) && !Hazard(s', DoRelease(rid)) && Unreserve(s', rid).debt == s'.debt
  {
    hide Owed, HoldsFit, RowsFit, PendingFits, DoublesFit;
    assert ReaderFits(s.readers[r], s.landed);
  }

  /** A version that somebody else uploads is reserved for the uploader but adds to the owner's usage, and the owner's
      counter never hears of it. */
  lemma ForeignUpdateIsUncharged(s: State, j: nat, owner: UserId)
    requires Shape(s) && CanLand(s, j) && s.jobs[j].kind.FileUpdate?
    requires Payer(s, j) == Owned(owner) && owner != s.jobs[j].user
    ensures
      var s' := DoLand(s, j, true);
      s'.redis == s.redis && Load(s', owner) == Load(s, owner).Plus(Amount(0, s.jobs[j].size))
  {
    hide Load, Total, Own, Payer, DoublesFit, PhasesFit, RowsFit, PendingFits, ReadersFit, LandedSecrets, LandedFiles,
         StrayAll, Stray;
    LoadAfterLand(s, j, true, owner);
    NoneOfTheirs(s, j, owner);
  }

  lemma NoneOfTheirs(s: State, j: nat, u: UserId)
    requires HoldsFit(s.redis, s.jobs) && j in s.jobs && s.jobs[j].user != u
    ensures Total(Own(s.redis.holds, j, u)) == Zero()
  {
    hide Total, Own;
    assert forall rid :: rid in s.redis.holds ==> Fits(s.jobs, rid, s.redis.holds[rid]);
    OwnAre(s.redis.holds, j, u);
    TotalEmpty(Own(s.redis.holds, j, u));
  }

  // ---------- When reconciliation is exact, and when it is not ----------

  function ReadBy(s: State, r: nat, rd: Reader): State {
    s.(readers := s.readers[r := rd])
  }

  lemma LeadsToRead(s0: State, steps: seq<Step>, s: State, r: nat, rd: Reader)
    requires Leads(s0, steps, ReadBy(s, r, rd)) && rd.progress < 3
    ensures Leads(s0, steps + [Read(r)], ReadBy(s, r, ReadOn(s, rd)))
  {
    hide Leads, ReadOn;
    LeadsOn(s0, steps, ReadBy(s, r, rd), Read(r));
    ReadsTheRows(s, r, rd);
    assert DoRead(ReadBy(s, r, rd), r) == ReadBy(s, r, ReadOn(s, rd));
  }

  lemma ReadsTheRows(s: State, r: nat, rd: Reader)
    ensures ReadOn(ReadBy(s, r, rd), rd) == ReadOn(s, rd)
  {
    hide Total, OwnedSecrets, ActiveFiles, QueuedFiles;
  }

  function AllReads(r: nat, u: UserId): seq<Step> {
    [StartRead(r, u), Read(r), Read(r), Read(r)]
  }

  /** What a usage read returns that nothing interrupts. */
  ghost function FreshRead(s: State, u: UserId): Reader {
    Reader(u, 3, Durable(s.secrets, s.files, s.outbox, u), s.landed, s.landed, Zero())
  }

  lemma ThreeReads(s: State, u: UserId)
    ensures
      var rd0 := Reader(u, 0, Zero(), {}, {}, Zero());
      ReadOn(s, rd0).progress == 1 && ReadOn(s, ReadOn(s, rd0)).progress == 2
      && ReadOn(s, ReadOn(s, ReadOn(s, rd0))) == FreshRead(s, u)
  {
    hide Total, OwnedSecrets, ActiveFiles, QueuedFiles;
  }

  /** A usage read that nothing interrupts returns the durable usage and misses nothing. */
  lemma AtomicRead(s0: State, steps: seq<Step>, s: State, r: nat, u: UserId)
    requires Leads(s0, steps, s) && r !in s.readers
    ensures Leads(s0, steps + AllReads(r, u), ReadBy(s, r, FreshRead(s, u)))
  {
    hide Leads, ReadOn, FreshRead;
    var rd0 := Reader(u, 0, Zero(), {}, {}, Zero());
    ThreeReads(s, u);
    LeadsOn(s0, steps, s, StartRead(r, u));
    LeadsToRead(s0, steps + [StartRead(r, u)], s, r, rd0);
    LeadsToRead(s0, steps + [StartRead(r, u)] + [Read(r)], s, r, ReadOn(s, rd0));
    LeadsToRead(s0, steps + [StartRead(r, u)] + [Read(r)] + [Read(r)], s, r, ReadOn(s, ReadOn(s, rd0)));
    assert steps + [StartRead(r, u)] + [Read(r)] + [Read(r)] + [Read(r)] == steps + AllReads(r, u);
  }

  /** Steps that can make a usage read in progress for a user miss something. */
  predicate Disturbs(s: State, step: Step, u: UserId)
    requires Enabled(s, step)
  {
    match step
    case DoRelease(rid) => rid.request in s.landed && s.redis.holds[rid].user == u
    case DoCommit(rid) => s.redis.holds[rid].user == u
    case Land(j, _) => Payer(s, j) == Owned(u) && Stray(s, j) != Zero()
    case _ => false
  }

  ghost predicate Quiet(s: State, steps: seq<Step>, r: nat, u: UserId)
    requires Legal(s, steps)
    decreases |steps|
  {
    steps != [] ==>
      && !Disturbs(s, steps[0], u)
      && r in Apply(s, steps[0]).readers
      && Quiet(Apply(s, steps[0]), steps[1..], r, u)
  }

  lemma QuietStep(s: State, step: Step, r: nat)
    requires Enabled(s, step) && r in s.readers && s.readers[r].miss == Zero()
    requires !Disturbs(s, step, s.readers[r].user) && r in Apply(s, step).readers
    ensures Apply(s, step).readers[r].miss == Zero() && Apply(s, step).readers[r].user == s.readers[r].user
  {
    hide Reserve, Release, Commit, Reconcile, Total;
  }

  /** If none of its user's landed reservations is settled meanwhile, even an interrupted read misses nothing. */
  lemma {:induction false} QuietReadMissesNothing(s: State, steps: seq<Step>, r: nat)
    requires r in s.readers && s.readers[r].miss == Zero()
    requires Legal(s, steps) && Quiet(s, steps, r, s.readers[r].user)
    ensures r in Run(s, steps).readers && Run(s, steps).readers[r].miss == Zero()
    decreases |steps|
  {
    hide Enabled, Apply;
    if steps != [] {
      QuietStep(s, steps[0], r);
      QuietReadMissesNothing(Apply(s, steps[0]), steps[1..], r);
    }
  }

  function Recovery(r: nat, rid: ReservationId, u: UserId): seq<Step> {
    AllReads(r, u) + [DoReconcile(r)] + [DoRelease(rid)]
  }

  lemma LeadsNowhere(s: State)
    ensures Leads(s, [], s)
  {
  }

  lemma ReadingLeads(s: State, r: nat, u: UserId)
    requires r !in s.readers
    ensures Leads(s, AllReads(r, u), ReadBy(s, r, FreshRead(s, u)))
  {
    hide Leads, FreshRead;
    LeadsNowhere(s);
    AtomicRead(s, [], s, r, u);
    assert [] + AllReads(r, u) == AllReads(r, u);
  }

  lemma RecoverySteps(s: State, r: nat, rid: ReservationId)
    requires r !in s.readers && rid in s.redis.holds && rid.request in s.landed
    ensures
      var u := s.redis.holds[rid].user;
      var read := ReadBy(s, r, FreshRead(s, u));
      && Enabled(read, DoReconcile(r)) && Enabled(RunReconcile(read, r), DoRelease(rid))
      && Leads(s, Recovery(r, rid, u), Unreserve(RunReconcile(read, r), rid))
  {
    hide Leads, Durable, RunReconcile, Unreserve;
    var u := s.redis.holds[rid].user;
    var read := ReadBy(s, r, FreshRead(s, u));
    ReadingLeads(s, r, u);
    LeadsOn(s, AllReads(r, u), read, DoReconcile(r));
    ReconcileKeepsHolds(read, r);
    LeadsOn(s, AllReads(r, u) + [DoReconcile(r)], RunReconcile(read, r), DoRelease(rid));
  }

  lemma ReconcileKeepsHolds(s: State, r: nat)
    requires r in s.readers
    ensures
      var s' := RunReconcile(s, r);
      s'.redis.holds == s.redis.holds && s'.landed == s.landed && At(s'.debt, s.readers[r].user) == s.readers[r].miss
  {
    hide Owed, Recounted;
  }

  /** The counter is the load, which has not changed, plus, once more, the reservations whose transactions have
      committed. */
  ghost predicate CountsExactly(s: State, s': State, u: UserId) {
    && Load(s', u) == Load(s, u)
    && u in s'.redis.usage
    && s'.redis.usage[u] == Load(s, u).Plus(Total(Backed(s.redis.holds, s.landed, {}, u)))
  }

  /** That is what a reconciliation comes to that nothing disturbs. */
  lemma UndisturbedReconcileIsExact(s: State, r: nat, u: UserId)
    requires Shape(s) && r !in s.readers
    ensures exists s' :: Leads(s, AllReads(r, u) + [DoReconcile(r)], s') && CountsExactly(s, s', u)
  {
    hide Leads, Shape, Load, Owed, Total, Backed, Durable, Unlanded, FreshRead;
    var read := ReadBy(s, r, FreshRead(s, u));
    ReadingLeads(s, r, u);
    FreshReadSees(s, u);
    LeadsOn(s, AllReads(r, u), read, DoReconcile(r));
    ShapeHolds(s);
    OwedExactly(s.redis, s.landed, u);
    ReconcileWrites(read, r);
    LoadIs(s, u);
    LoadIs(RunReconcile(read, r), u);
    assert CountsExactly(s, RunReconcile(read, r), u);
  }

  lemma ShapeHolds(s: State)
    requires Shape(s)
    ensures s.redis.WellFormed()
  {
  }

  lemma FreshReadSees(s: State, u: UserId)
    ensures
      var rd := FreshRead(s, u);
      rd.user == u && rd.progress == 3 && rd.snap == Durable(s.secrets, s.files, s.outbox, u)
  {
    hide Durable;
  }

  lemma LoadIs(s: State, u: UserId)
    ensures
      Load(s, u)
      == Durable(s.secrets, s.files, s.outbox, u).Plus(Total(Unlanded(s.redis.holds, s.landed, u)))
  {
  }

  lemma ReconcileWrites(s: State, r: nat)
    requires r in s.readers
    ensures
      var u, s' := s.readers[r].user, RunReconcile(s, r);
      && s'.redis == s.redis.(
           usage := s.redis.usage[u := s.readers[r].snap.Plus(Owed(s.redis, u, s.redis.index.Keys))])
      && s'.secrets == s.secrets && s'.files == s.files && s'.outbox == s.outbox && s'.landed == s.landed
  {
    hide Owed, Recounted;
  }

  /** What the code does about a commit that failed, in any state: reconcile, and let the reaper undo the reservation of
      the landed transaction later. Afterwards the counter covers the user's whole load, whatever was owed before. */
  lemma RecoveryRepairs(s: State, r: nat, rid: ReservationId)
    requires Shape(s) && QuotaInv(s) && r !in s.readers && rid in s.redis.holds && rid.request in s.landed
    ensures
      var u := s.redis.holds[rid].user;
      && Legal(s, Recovery(r, rid, u))
      && var s' := Run(s, Recovery(r, rid, u));
         rid !in s'.redis.holds && u in s'.redis.usage && Load(s', u).Leq(s'.redis.usage[u])
  {
    hide Legal, Run, Shape, QuotaInv, Load, Covers, Bounded, RunReconcile, Durable, Recovery;
    var u := s.redis.holds[rid].user;
    var read := ReadBy(s, r, FreshRead(s, u));
    RecoverySteps(s, r, rid);
    ReadingLeads(s, r, u);
    ReachedShape(s, AllReads(r, u), read);
    ReconcileKeepsHolds(read, r);
    ReconciledUserHasCounter(read, r);
    RecoveryIsHarmless(read, r, rid);
    QuotaOverRuns(s, Recovery(r, rid, u));
    var s' := Run(s, Recovery(r, rid, u));
    CoversUser(s', u);
    LoadWithinCounter(s', u);
  }

  lemma ReachedShape(s: State, steps: seq<Step>, s': State)
    requires Shape(s) && QuotaInv(s) && Leads(s, steps, s')
    ensures Shape(s') && QuotaInv(s')
  {
    hide Shape, QuotaInv;
    QuotaOverRuns(s, steps);
  }

  // ---------- How far a stale reconciliation can be off ----------

  /** The part of a usage read's tables that a late change escapes: secrets once they are read, files once they are. */
  function LateFor(rd: Reader, secretsSeen: bool, filesSeen: bool, delta: Amount): Amount {
    Amount(if rd.progress >= 1 && !secretsSeen then delta.secrets else 0,
           if rd.progress >= 2 && !filesSeen then delta.bytes else 0)
  }

  /** What a step makes a usage read miss: a reservation of its user whose transaction landed after the statement that
      would have counted it and that is settled now, or a landing that its payer had not reserved. */
  function Missed(s: State, step: Step, r: nat): Amount
    requires Enabled(s, step) && r in s.readers
  {
    var rd := s.readers[r];
    match step
    case DoCommit(rid) => SettledLate(s, rid, rd)
    case DoRelease(rid) => if rid.request in s.landed then SettledLate(s, rid, rd) else Zero()
    case Land(j, _) => if Payer(s, j) == Owned(rd.user) then LateFor(rd, false, false, Stray(s, j)) else Zero()
    case _ => Zero()
  }

  function SettledLate(s: State, rid: ReservationId, rd: Reader): Amount
    requires rid in s.redis.holds
  {
    if s.redis.holds[rid].user != rd.user then Zero()
    else LateFor(rd, rid.request in rd.sawSecrets, rid.request in rd.sawFiles, s.redis.holds[rid].delta)
  }

  /** The read goes on, and nobody starts another one under its number. */
  ghost predicate Waits(s: State, steps: seq<Step>, r: nat)
    requires Legal(s, steps)
    decreases |steps|
  {
    r in s.readers && (steps != [] ==> Waits(Apply(s, steps[0]), steps[1..], r))
  }

  ghost function Drift(s: State, steps: seq<Step>, r: nat): Amount
    requires Legal(s, steps) && Waits(s, steps, r)
    decreases |steps|
  {
    if steps == [] then Zero() else Missed(s, steps[0], r).Plus(Drift(Apply(s, steps[0]), steps[1..], r))
  }

  lemma ReadingMissesNothing(s: State, rd: Reader)
    requires ReaderFits(rd, s.landed)
    ensures ReadOn(s, rd).miss == rd.miss && ReadOn(s, rd).user == rd.user
  {
    hide Total, OwnedSecrets, ActiveFiles, QueuedFiles;
  }

  /** What a step makes a usage read miss is added to what it misses. */
  ghost predicate MissesAfter(s: State, step: Step, r: nat)
    requires Enabled(s, step) && r in s.readers && r in Apply(s, step).readers
  {
    && Apply(s, step).readers[r].miss == s.readers[r].miss.Plus(Missed(s, step, r))
    && Apply(s, step).readers[r].user == s.readers[r].user
  }

  lemma CommitMisses(s: State, rid: ReservationId, r: nat)
    requires Enabled(s, DoCommit(rid)) && r in s.readers
    ensures r in Apply(s, DoCommit(rid)).readers && MissesAfter(s, DoCommit(rid), r)
  {
    hide SettleAllReaders, Commit;
  }

  lemma ReleaseMisses(s: State, rid: ReservationId, r: nat)
    requires Enabled(s, DoRelease(rid)) && r in s.readers
    ensures r in Apply(s, DoRelease(rid)).readers && MissesAfter(s, DoRelease(rid), r)
  {
    hide SettleAllReaders, Release;
  }

  lemma LandingMisses(s: State, j: nat, reported: bool, r: nat)
    requires Enabled(s, Land(j, reported)) && r in s.readers
    ensures r in Apply(s, Land(j, reported)).readers && MissesAfter(s, Land(j, reported), r)
  {
    hide StrayAll, Stray, Payer, LandedSecrets, LandedFiles;
  }

  lemma ReadMisses(s: State, q: nat, r: nat)
    requires Enabled(s, Read(q)) && r in s.readers && ReaderFits(s.readers[r], s.landed)
    ensures r in Apply(s, Read(q)).readers && MissesAfter(s, Read(q), r)
  {
    hide ReadOn;
    if q == r {
      ReadingMissesNothing(s, s.readers[r]);
    }
  }

  lemma OtherStepsMissNothing(s: State, step: Step, r: nat)
    requires Enabled(s, step) && r in s.readers && r in Apply(s, step).readers
    requires !step.Read? && !step.Land? && !step.DoCommit? && !step.DoRelease?
    ensures MissesAfter(s, step, r)
  {
    hide Ask, Owed, Recounted, WithoutOwner, WithoutPayer, Enqueued, Remaining;
  }

  lemma StepMisses(s: State, step: Step, r: nat)
    requires Enabled(s, step) && r in s.readers && ReaderFits(s.readers[r], s.landed) && r in Apply(s, step).readers
    ensures MissesAfter(s, step, r)
  {
    hide Apply, Enabled, MissesAfter, ReaderFits;
    match step
    case DoCommit(rid) => CommitMisses(s, rid, r);
    case DoRelease(rid) => ReleaseMisses(s, rid, r);
    case Land(j, reported) => LandingMisses(s, j, reported, r);
    case Read(q) => ReadMisses(s, q, r);
    case _ => OtherStepsMissNothing(s, step, r);
  }

  lemma {:induction false} DriftAddsUp(s: State, steps: seq<Step>, r: nat)
    requires Shape(s) && Legal(s, steps) && Waits(s, steps, r)
    ensures
      var s' := Run(s, steps);
      && r in s'.readers && s'.readers[r].user == s.readers[r].user
      && s'.readers[r].miss == s.readers[r].miss.Plus(Drift(s, steps, r))
    decreases |steps|
  {
    hide Enabled, Apply, Missed, Shape;
    if steps != [] {
      ReaderIsSound(s, r);
      StepMisses(s, steps[0], r);
      StepKeepsShape(s, steps[0]);
      DriftAddsUp(Apply(s, steps[0]), steps[1..], r);
    }
  }

  /** From the start of a usage read to the reconciliation that uses it: the counter then under-reports by at most what
      was settled, or landed unreserved, behind the back of the read's statements. */
  lemma StaleReconcileDrift(s: State, r: nat, u: UserId, steps: seq<Step>)
    requires Shape(s) && QuotaInv(s) && Enabled(s, StartRead(r, u))
    requires Legal(DoStartRead(s, r, u), steps) && Waits(DoStartRead(s, r, u), steps, r)
    requires Enabled(Run(DoStartRead(s, r, u), steps), DoReconcile(r))
    ensures
      var s' := Apply(Run(DoStartRead(s, r, u), steps), DoReconcile(r));
      u in s'.redis.usage && Load(s', u).Leq(s'.redis.usage[u].Plus(Drift(DoStartRead(s, r, u), steps, r)))
  {
    hide Shape, QuotaInv, Run, Legal, Drift, Enabled, Waits, Load, Covers, Bounded, Apply;
    var s1 := DoStartRead(s, r, u);
    assert Apply(s, StartRead(r, u)) == s1 by { StartReadIs(s, r, u); }
    StepKeepsShape(s, StartRead(r, u));
    StepKeepsQuota(s, StartRead(r, u));
    StartIsSound(s, r, u);
    DriftAddsUp(s1, steps, r);
    QuotaOverRuns(s1, steps);
    var before := Run(s1, steps);
    StepKeepsQuota(before, DoReconcile(r));
    CoversUser(Apply(before, DoReconcile(r)), u);
    ReconciledUserHasCounter(before, r);
    StepKeepsShape(before, DoReconcile(r));
    LoadWithinCounter(Apply(before, DoReconcile(r)), u);
  }

  lemma StartReadIs(s: State, r: nat, u: UserId)
    requires Enabled(s, StartRead(r, u))
    ensures Apply(s, StartRead(r, u)) == DoStartRead(s, r, u)
  {
  }

  lemma StartIsSound(s: State, r: nat, u: UserId)
    ensures
      var s1 := DoStartRead(s, r, u);
      r in s1.readers && s1.readers[r].user == u && s1.readers[r].miss == Zero()
  {
  }

  lemma CoversUser(s: State, u: UserId)
    requires QuotaInv(s)
    ensures Covers(s, u) && Bounded(s, u)
  {
    hide Covers, Bounded;
    assert Covers(s, u) && Bounded(s, u);
  }

  lemma LoadWithinCounter(s: State, u: UserId)
    requires Shape(s) && Covers(s, u)
    ensures u in s.redis.usage ==> Load(s, u).Leq(s.redis.usage[u].Plus(At(s.debt, u)))
  {
    hide Load, Shape, Total, Twice;
    TwiceIsNotNegative(s, u);
  }

  lemma ReconciledUserHasCounter(s: State, r: nat)
    requires Enabled(s, DoReconcile(r))
    ensures
      var s' := Apply(s, DoReconcile(r));
      s.readers[r].user in s'.redis.usage && At(s'.debt, s.readers[r].user) == s.readers[r].miss
  {
    hide Owed, Recounted;
  }
}
