/** Every step keeps requests, reservations and rows consistent with each other. */
module Shapes {
  import opened Amounts
  import opened QuotaScripts
  import opened Backend

  lemma ReserveKeepsHolds(redis: Redis, jobs: map<nat, Job>, j: nat, limit: Amount, at: int, initial: Amount)
    requires HoldsFit(redis, jobs) && j in jobs && NextCharge(jobs[j]) != {}
    ensures
      var job, rid := jobs[j], ReservationId(j, Charge(jobs[j]));
      var (redis', reply) := Reserve(redis, job.user, rid, job.Delta(Charge(job)), limit, at, initial);
      var phase := if reply.Denied? then Failed else if rid.charge.Secrets? then Granted else Funded;
      HoldsFit(redis', jobs[j := job.(phase := phase)]) && redis.holds.Keys <= redis'.holds.Keys
  {
    hide Reserve, Release, Commit, ReapKey, Reconcile;
    var job, rid := jobs[j], ReservationId(j, Charge(jobs[j]));
    ScriptsKeepWellFormed(redis, job.user, rid, job.Delta(Charge(job)), limit, at, initial);
    AcceptedIffBothFit(redis, job.user, rid, job.Delta(Charge(job)), limit, at, initial);
  }

  lemma FewerReaders(readers: map<nat, Reader>, landed: set<nat>, r: nat)
    requires ReadersFit(readers, landed)
    ensures ReadersFit(readers - {r}, landed)
  {
  }

  lemma ReserveKeepsPhases(s: State, j: nat, phase: Phase)
    requires Shape(s) && j in s.jobs && NextCharge(s.jobs[j]) != {}
    requires phase == Failed || phase == if Charge(s.jobs[j]).Secrets? then Granted else Funded
    ensures PhasesFit(s.jobs[j := s.jobs[j].(phase := phase)], s.landed)
    ensures RowsFit(s.secrets, s.files, s.outbox, s.jobs[j := s.jobs[j].(phase := phase)], s.landed)
    ensures PendingFits(s.pending, s.jobs[j := s.jobs[j].(phase := phase)], s.landed)
  {
  }

  lemma TryReserveKeepsShape(s: State, r: nat, j: nat, at: int)
    requires Shape(s) && Enabled(s, TryReserve(r, j, at))
    ensures Shape(DoReserve(s, r, j, at))
  {
    hide HoldsFit, PhasesFit, RowsFit, PendingFits, ReadersFit, DoublesFit, Reserve;
    var job, reply := s.jobs[j], Ask(s, r, j, at).1;
    FewerReaders(s.readers, s.landed, r);
    ReserveKeepsHolds(s.redis, s.jobs, j, Limit(s.limits, job.user), at, s.readers[r].snap);
    ReserveKeepsPhases(s, j, if reply.Denied? then Failed else if Charge(job).Secrets? then Granted else Funded);
    MoreHoldsKeepDoubles(s.doubled, s.redis.holds, DoReserve(s, r, j, at).redis.holds, s.landed);
  }

  lemma MoreHoldsKeepDoubles(doubled: set<ReservationId>, holds: map<ReservationId, Hold>,
                             holds': map<ReservationId, Hold>, landed: set<nat>)
    requires DoublesFit(doubled, holds, landed) && holds.Keys <= holds'.Keys
    ensures DoublesFit(doubled, holds', landed)
  {
  }

  lemma ReleaseKeepsHolds(redis: Redis, jobs: map<nat, Job>, rid: ReservationId)
    requires HoldsFit(redis, jobs) && rid in redis.holds
    ensures HoldsFit(Release(redis, redis.holds[rid].user, rid), jobs)
    ensures HoldsFit(Commit(redis, rid), jobs)
  {
    ScriptsKeepWellFormed(redis, redis.holds[rid].user, rid, Zero(), Zero(), 0, Zero());
  }

  lemma SettlingKeepsReaders(readers: map<nat, Reader>, landed: set<nat>, j: nat, u: UserId, delta: Amount)
    requires ReadersFit(readers, landed)
    ensures ReadersFit(SettleAllReaders(readers, j, u, delta), landed)
  {
    hide SettleAllReaders;
  }

  lemma FewerHoldsKeepDoubles(doubled: set<ReservationId>, holds: map<ReservationId, Hold>, landed: set<nat>,
                              rid: ReservationId)
    requires DoublesFit(doubled, holds, landed)
    ensures DoublesFit(doubled - {rid}, holds - {rid}, landed)
  {
  }

  lemma ReleaseKeepsShape(s: State, rid: ReservationId)
    requires Shape(s) && rid in s.redis.holds
    ensures Shape(Unreserve(s, rid))
  {
    hide HoldsFit, PhasesFit, RowsFit, PendingFits, ReadersFit, DoublesFit;
    var hold := s.redis.holds[rid];
    ReleaseKeepsHolds(s.redis, s.jobs, rid);
    SettlingKeepsReaders(s.readers, s.landed, rid.request, hold.user, hold.delta);
    FewerHoldsKeepDoubles(s.doubled, s.redis.holds, s.landed, rid);
  }

  lemma CommitKeepsShape(s: State, rid: ReservationId)
    requires Shape(s) && rid in s.redis.holds
    ensures Shape(SettleHold(s, rid))
  {
    hide HoldsFit, PhasesFit, RowsFit, PendingFits, ReadersFit, DoublesFit;
    var hold := s.redis.holds[rid];
    ReleaseKeepsHolds(s.redis, s.jobs, rid);
    SettlingKeepsReaders(s.readers, s.landed, rid.request, hold.user, hold.delta);
    FewerHoldsKeepDoubles(s.doubled, s.redis.holds, s.landed, rid);
  }

  lemma LandKeepsRows(s: State, j: nat, reported: bool)
    requires Shape(s) && CanLand(s, j)
    ensures var s' := DoLand(s, j, reported); RowsFit(s'.secrets, s'.files, s'.outbox, s'.jobs, s'.landed)
  {
    hide HoldsFit, PendingFits, ReadersFit, DoublesFit, Stray, StrayAll;
    assert j !in s.landed;
  }

  lemma LandKeepsPhases(s: State, j: nat, phase: Phase)
    requires Shape(s) && CanLand(s, j) && (phase.Landed? || phase.Failed?)
    ensures PhasesFit(s.jobs[j := s.jobs[j].(phase := phase)], s.landed + {j})
    ensures PendingFits(s.pending - {j}, s.jobs[j := s.jobs[j].(phase := phase)], s.landed + {j})
    ensures HoldsFit(s.redis, s.jobs[j := s.jobs[j].(phase := phase)])
  {
  }

  lemma LandKeepsReaders(readers: map<nat, Reader>, landed: set<nat>, payer: Owner, stray: Amount, j: nat)
    requires ReadersFit(readers, landed)
    ensures ReadersFit(StrayAll(readers, payer, stray), landed + {j})
  {
    hide StrayAll, Strayed, ReaderFits;
    forall r | r in readers ensures ReaderFits(Strayed(readers[r], payer, stray), landed + {j}) {
      StrayedFits(readers[r], payer, stray, landed, j);
    }
  }

  lemma StrayedFits(rd: Reader, payer: Owner, stray: Amount, landed: set<nat>, j: nat)
    requires ReaderFits(rd, landed)
    ensures ReaderFits(Strayed(rd, payer, stray), landed + {j})
  {
    MoreLandedFits(rd, landed, j);
    OnlyMissChanges(rd, payer, stray, landed + {j});
  }

  lemma MoreLandedFits(rd: Reader, landed: set<nat>, j: nat)
    requires ReaderFits(rd, landed)
    ensures ReaderFits(rd, landed + {j})
  {
  }

  lemma OnlyMissChanges(rd: Reader, payer: Owner, stray: Amount, landed: set<nat>)
    requires ReaderFits(rd, landed)
    ensures ReaderFits(Strayed(rd, payer, stray), landed)
  {
  }

  lemma LandKeepsShape(s: State, j: nat, reported: bool)
    requires Shape(s) && CanLand(s, j)
    ensures Shape(DoLand(s, j, reported))
  {
    hide HoldsFit, PhasesFit, RowsFit, PendingFits, ReadersFit;
    LandKeepsRows(s, j, reported);
    LandKeepsPhases(s, j, if reported then Landed else Failed);
    LandKeepsReaders(s.readers, s.landed, Payer(s, j), Stray(s, j), j);
  }

  lemma ReconcileKeepsShape(s: State, r: nat)
    requires Shape(s) && r in s.readers
    ensures Shape(RunReconcile(s, r))
  {
    hide PhasesFit, RowsFit, PendingFits, Owed;
    assert ReaderFits(s.readers[r], s.landed);
  }

  lemma CascadeKeepsShape(s: State, id: nat)
    requires Shape(s) && id in s.secrets
    ensures Shape(Cascade(s, id))
  {
    hide HoldsFit, PhasesFit, PendingFits, ReadersFit, DoublesFit, Enqueued;
  }

  lemma StoppingKeepsShape(s: State, j: nat, phase: Phase)
    requires Shape(s) && j in s.jobs
    requires phase.Dead? || (phase.Failed? && s.jobs[j].Live())
    ensures Shape(Advance(s, j, phase))
  {
    hide HoldsFit, PhasesFit, RowsFit, PendingFits, ReadersFit, DoublesFit;
    StoppingPhases(s, j, phase);
  }

  lemma StoppingPhases(s: State, j: nat, phase: Phase)
    requires Shape(s) && j in s.jobs
    requires phase.Dead? || (phase.Failed? && s.jobs[j].Live())
    ensures
      var jobs := s.jobs[j := s.jobs[j].(phase := phase)];
      HoldsFit(s.redis, jobs) && PhasesFit(jobs, s.landed) && PendingFits(s.pending, jobs, s.landed)
      && RowsFit(s.secrets, s.files, s.outbox, jobs, s.landed)
  {
    hide ReadersFit, DoublesFit;
  }

  lemma ArriveKeepsShape(s: State, j: nat, kind: Kind, user: UserId, size: nat)
    requires Shape(s) && j !in s.jobs
    ensures Shape(DoArrive(s, j, kind, user, size))
  {
    hide HoldsFit, PhasesFit, RowsFit, PendingFits, ReadersFit, DoublesFit;
    ArrivingPhases(s, j, Job(kind, user, size, Begun));
  }

  lemma ArrivingPhases(s: State, j: nat, job: Job)
    requires Shape(s) && j !in s.jobs && job.phase.Begun?
    ensures
      var jobs := s.jobs[j := job];
      HoldsFit(s.redis, jobs) && PhasesFit(jobs, s.landed) && PendingFits(s.pending, jobs, s.landed)
      && RowsFit(s.secrets, s.files, s.outbox, jobs, s.landed)
  {
    hide ReadersFit, DoublesFit;
  }

  lemma ReadOnFits(s: State, rd: Reader)
    requires ReaderFits(rd, s.landed) && rd.progress < 3
    ensures ReaderFits(ReadOn(s, rd), s.landed)
  {
    hide Total, OwnedSecrets, ActiveFiles, QueuedFiles;
  }

  lemma ReadKeepsShape(s: State, step: Step)
    requires Shape(s) && Enabled(s, step) && (step.StartRead? || step.Read?)
    ensures Shape(Apply(s, step))
  {
    hide HoldsFit, PhasesFit, RowsFit, PendingFits, DoublesFit, ReadOn;
    if step.Read? {
      ReadOnFits(s, s.readers[step.r]);
    }
  }

  lemma UploadPhases(s: State, j: nat, phase: Phase)
    requires Shape(s) && j in s.jobs
    requires (phase.Staged? && s.jobs[j].phase.Funded?) || (phase.Stored? && s.jobs[j].phase.Staged?)
    ensures
      var jobs := s.jobs[j := s.jobs[j].(phase := phase)];
      HoldsFit(s.redis, jobs) && PhasesFit(jobs, s.landed) && PendingFits(s.pending[j := jobs[j].user], jobs, s.landed)
      && PendingFits(s.pending, jobs, s.landed) && RowsFit(s.secrets, s.files, s.outbox, jobs, s.landed)
  {
  }

  lemma StageKeepsShape(s: State, j: nat)
    requires Shape(s) && j in s.jobs && s.jobs[j].phase.Funded?
    ensures Shape(DoStage(s, j))
  {
    hide HoldsFit, PhasesFit, RowsFit, PendingFits, ReadersFit;
    UploadPhases(s, j, Staged);
  }

  lemma StoreKeepsShape(s: State, j: nat)
    requires Shape(s) && j in s.jobs && s.jobs[j].phase.Staged?
    ensures Shape(DoStore(s, j))
  {
    hide HoldsFit, PhasesFit, RowsFit, PendingFits, ReadersFit;
    UploadPhases(s, j, Stored);
  }

  lemma DisownKeepsShape(s: State, u: UserId)
    requires Shape(s)
    ensures Shape(Disown(s, u))
  {
    hide HoldsFit, PhasesFit, ReadersFit, DoublesFit, WithoutOwner, WithoutPayer;
  }

  lemma CleanupStepsKeepShape(s: State, step: Step)
    requires Shape(s) && Enabled(s, step)
    requires
      || step.DeleteOwnObject? || step.EraseQueued? || step.MarkProcessed?
      || step.Fetch? || step.EraseFetched? || step.DropPending?
    ensures Shape(Apply(s, step))
  {
    hide HoldsFit, PhasesFit, ReadersFit, DoublesFit;
  }

  lemma StepKeepsShape(s: State, step: Step)
    requires Shape(s) && Enabled(s, step)
    ensures Shape(Apply(s, step))
  {
    hide Shape;
    match step
    case TryReserve(r, j, at) => TryReserveKeepsShape(s, r, j, at);
    case DoReconcile(r) => ReconcileKeepsShape(s, r);
    case Land(j, reported) => LandKeepsShape(s, j, reported);
    case Fail(j) => StoppingKeepsShape(s, j, Failed);
    case Crash(j) => StoppingKeepsShape(s, j, Dead);
    case DoRelease(rid) => ReleaseKeepsShape(s, rid);
    case DoCommit(rid) => CommitKeepsShape(s, rid);
    case DeleteSecret(id) => CascadeKeepsShape(s, id);
    case Arrive(j, kind, user, size) => ArriveKeepsShape(s, j, kind, user, size);
    case StartRead(_, _) => ReadKeepsShape(s, step);
    case Read(_) => ReadKeepsShape(s, step);
    case StageUpload(j) => StageKeepsShape(s, j);
    case StoreObject(j) => StoreKeepsShape(s, j);
    case DeleteUser(u) => DisownKeepsShape(s, u);
    case _ => CleanupStepsKeepShape(s, step);
  }
}
