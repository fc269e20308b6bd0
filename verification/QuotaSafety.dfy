/** Over every interleaving, counters never under-report by more than the recorded debt, and no user's load exceeds
    the limit by more than the recorded excess. */
module QuotaSafety {
  import opened Amounts
  import opened QuotaScripts
  import opened Backend
  import opened UsageSums
  import opened Shapes

  /** A counter accounts for the durable usage, the reservations that have yet to become durable, and what it holds
      twice. */
  ghost predicate Covers(s: State, u: UserId) {
    u in s.redis.usage ==>
      Load(s, u).Plus(Total(Twice(s.redis.holds, s.doubled, u))).Leq(s.redis.usage[u].Plus(At(s.debt, u)))
  }

  ghost predicate Bounded(s: State, u: UserId) {
    Load(s, u).Leq(Limit(s.limits, u).Plus(At(s.excess, u)))
  }

  /** What a usage read accounts for: its snapshot, what landed later and is still reserved, and what it misses. */
  ghost function Known(rd: Reader, holds: map<ReservationId, Hold>, landed: set<nat>): Amount {
    Amount(rd.snap.secrets + Total(Backed(holds, landed, rd.sawSecrets, rd.user)).secrets + rd.miss.secrets,
           rd.snap.bytes + Total(Backed(holds, landed, rd.sawFiles, rd.user)).bytes + rd.miss.bytes)
  }

  ghost predicate Tracks(rd: Reader, holds: map<ReservationId, Hold>, landed: set<nat>,
                         secrets: map<nat, Owner>, files: map<nat, FileRow>, outbox: map<nat, OutboxRow>) {
    var known, durable := Known(rd, holds, landed), Durable(secrets, files, outbox, rd.user);
    && (rd.progress >= 1 ==> durable.secrets <= known.secrets)
    && (rd.progress == 2 ==> Total(ActiveFiles(secrets, files, rd.user)).bytes <= known.bytes)
    && (rd.progress == 3 ==> durable.bytes <= known.bytes)
  }

  ghost predicate AllTrack(s: State) {
    forall r :: r in s.readers ==> Tracks(s.readers[r], s.redis.holds, s.landed, s.secrets, s.files, s.outbox)
  }

  ghost predicate QuotaInv(s: State) {
    && (forall u :: Covers(s, u) && Bounded(s, u))
    && AllTrack(s)
  }

  // ---------- How each step changes a load ----------

  /** What a landing request adds to its payer. */
  function Gain(job: Job): Amount {
    Amount(if job.kind.Creates() then 1 else 0, if job.kind.HasFile() then job.size else 0)
  }

  function For(applies: bool, amount: Amount): Amount {
    if applies then amount else Zero()
  }

  lemma LoadAfterRelease(s: State, rid: ReservationId, u: UserId)
    requires rid in s.redis.holds
    ensures
      var hold := s.redis.holds[rid];
      Load(s, u) == Load(Unreserve(s, rid), u).Plus(For(hold.user == u && rid.request !in s.landed, hold.delta))
    ensures rid.request in s.landed ==> Load(SettleHold(s, rid), u) == Load(s, u)
  {
    hide Total, Durable;
    UnlandedRemoved(s.redis.holds, s.landed, rid, u);
  }

  lemma ReservationIsNew(s: State, j: nat)
    requires Shape(s) && j in s.jobs && NextCharge(s.jobs[j]) != {}
    ensures ReservationId(j, Charge(s.jobs[j])) !in s.redis.holds && j !in s.landed
  {
    hide PendingFits, ReadersFit, RowsFit;
    var rid := ReservationId(j, Charge(s.jobs[j]));
    assert rid in s.redis.holds ==> Fits(s.jobs, rid, s.redis.holds[rid]);
  }

  lemma AskEffect(s: State, r: nat, j: nat, at: int)
    requires r in s.readers && j in s.jobs
    ensures
      var job, current := s.jobs[j], s.redis.Counter(s.jobs[j].user, s.readers[r].snap);
      var d := Charge(job);
      var (redis', reply) := Ask(s, r, j, at);
      && (reply.Accepted? <==> current.Plus(job.Delta(d)).Leq(Limit(s.limits, job.user)))
      && redis'.usage == s.redis.usage[job.user := if reply.Accepted? then current.Plus(job.Delta(d)) else current]
      && redis'.holds
         == if reply.Accepted? then s.redis.holds[ReservationId(j, d) := Hold(job.user, job.Delta(d), false)]
            else s.redis.holds
  {
    hide Reserve;
    var job := s.jobs[j];
    AcceptedIffBothFit(s.redis, job.user, ReservationId(j, Charge(job)), job.Delta(Charge(job)),
                       Limit(s.limits, job.user), at, s.readers[r].snap);
  }

  lemma LoadAfterReserve(s: State, r: nat, j: nat, at: int, u: UserId)
    requires r in s.readers && j in s.jobs
    requires ReservationId(j, Charge(s.jobs[j])) !in s.redis.holds && j !in s.landed
    ensures
      var job := s.jobs[j];
      Load(DoReserve(s, r, j, at), u)
      == Load(s, u).Plus(For(job.user == u && Ask(s, r, j, at).1.Accepted?, job.Delta(Charge(job))))
  {
    hide Total, Durable, Unlanded, At, Limit, Charge, Ask;
    var job := s.jobs[j];
    AskEffect(s, r, j, at);
    HoldAdded(s.redis.holds, s.landed, {}, ReservationId(j, Charge(job)),
              Hold(job.user, job.Delta(Charge(job)), false), u);
  }

  lemma RowsAfterLand(secrets: map<nat, Owner>, files: map<nat, FileRow>, outbox: map<nat, OutboxRow>, j: nat,
                      job: Job, u: UserId)
    requires j !in secrets && j !in files
    requires forall k :: k in files ==> files[k].secret in secrets
    requires job.kind.FileUpdate? ==> job.kind.secret in secrets
    ensures
      var payer := if job.kind.FileUpdate? then secrets[job.kind.secret] else Owned(job.user);
      Durable(LandedSecrets(secrets, j, job), LandedFiles(files, j, job), outbox, u)
      == Durable(secrets, files, outbox, u).Plus(For(payer == Owned(u), Gain(job)))
  {
    hide Total, OwnedSecrets, ActiveFiles, QueuedFiles;
    match job.kind {
      case TextCreate =>
        SecretInserted(secrets, files, j, Owned(job.user), u);
      case FileCreate =>
        SecretInserted(secrets, files, j, Owned(job.user), u);
        FileInserted(secrets[j := Owned(job.user)], files, j, FileRow(j, job.size), u);
      case FileUpdate(secret) =>
        FileInserted(secrets, files, j, FileRow(secret, job.size), u);
    }
  }

  lemma LoadAfterLand(s: State, j: nat, reported: bool, u: UserId)
    requires Shape(s) && CanLand(s, j)
    ensures
      Load(s, u).Plus(For(Payer(s, j) == Owned(u), Gain(s.jobs[j])))
      == Load(DoLand(s, j, reported), u).Plus(Total(Own(s.redis.holds, j, u)))
  {
    hide Total, Durable, Shape, Unlanded, Own, LandedSecrets, LandedFiles;
    LandIsNew(s, j);
    RowsAreLinked(s);
    RowsAfterLand(s.secrets, s.files, s.outbox, j, s.jobs[j], u);
    LandedSums(s.redis.holds, s.landed, {}, j, u);
  }

  lemma RowsAreLinked(s: State)
    requires Shape(s)
    ensures forall k :: k in s.files ==> s.files[k].secret in s.secrets
  {
  }

  /** What lands is backed by the payer's reservations or counted as stray. */
  lemma GainIsBackedOrStray(s: State, j: nat, u: UserId)
    requires Shape(s) && CanLand(s, j)
    ensures
      For(Payer(s, j) == Owned(u), Gain(s.jobs[j]))
      .Leq(Total(Own(s.redis.holds, j, u)).Plus(For(Payer(s, j) == Owned(u), Stray(s, j))))
  {
    hide Total;
    OwnSum(s.redis.holds, s.jobs, j, u);
  }

  /** Deleting a secret frees its slot and moves its bytes from the versions to the outbox: none are lost or freed. */
  lemma DeletionConservesBytes(s: State, id: nat, u: UserId)
    requires Shape(s) && id in s.secrets
    ensures
      var s' := Cascade(s, id);
      Durable(s.secrets, s.files, s.outbox, u)
      == Durable(s'.secrets, s'.files, s'.outbox, u).Plus(For(s.secrets[id] == Owned(u), Amount(1, 0)))
    ensures
      Total(ActiveFiles(Cascade(s, id).secrets, Cascade(s, id).files, u)).bytes
      <= Total(ActiveFiles(s.secrets, s.files, u)).bytes
  {
    hide Shape;
    QueuedHaveNoRow(s);
    DeletedRows(s.secrets, s.files, s.outbox, id, u);
  }

  lemma QueuedHaveNoRow(s: State)
    requires Shape(s)
    ensures forall k :: k in s.outbox ==> k !in s.files
  {
  }

  lemma DeletedRows(secrets: map<nat, Owner>, files: map<nat, FileRow>, outbox: map<nat, OutboxRow>, id: nat, u: UserId)
    requires id in secrets
    requires forall k :: k in outbox ==> k !in files
    ensures
      var files', outbox' := Remaining(files, id), Enqueued(files, id, secrets[id]) + outbox;
      && Durable(secrets, files, outbox, u)
         == Durable(secrets - {id}, files', outbox', u).Plus(For(secrets[id] == Owned(u), Amount(1, 0)))
      && Total(ActiveFiles(secrets - {id}, files', u)).bytes <= Total(ActiveFiles(secrets, files, u)).bytes
  {
    hide Total, OwnedSecrets, ActiveFiles, QueuedFiles, Remaining, Enqueued, Moved;
    SecretRemoved(secrets, id, u);
    FilesMoved(secrets, files, outbox, id, u);
  }

  /** Only the processed mark of an outbox row lowers its owner's bytes, by exactly the billed amount. */
  lemma ProcessingFreesBilledBytes(s: State, k: nat, stage: Stage, u: UserId)
    requires k in s.outbox && !s.outbox[k].stage.Processed?
    ensures
      Durable(s.secrets, s.files, s.outbox, u)
      == Durable(s.secrets, s.files, Restage(s, k, stage).outbox, u)
         .Plus(For(stage.Processed? && s.outbox[k].owner == Owned(u), Amount(0, s.outbox[k].billed)))
  {
    hide Total, OwnedSecrets, ActiveFiles, QueuedFiles;
    Restaged(s.outbox, k, stage, u);
  }

  /** Deleting a user leaves that user with nothing and everybody else's usage as it was. */
  lemma DisowningFreesOne(s: State, gone: UserId, u: UserId)
    ensures
      var s' := Disown(s, gone);
      && Durable(s'.secrets, s'.files, s'.outbox, u)
         == (if u == gone then Zero() else Durable(s.secrets, s.files, s.outbox, u))
      && Total(ActiveFiles(s'.secrets, s'.files, u))
         == (if u == gone then Zero() else Total(ActiveFiles(s.secrets, s.files, u)))
  {
    hide Total, OwnedSecrets, ActiveFiles, QueuedFiles, WithoutOwner, WithoutPayer;
    DisownedSecrets(s.secrets, gone, u);
    DisownedFiles(s.secrets, s.files, gone, u);
    DisownedQueue(s.outbox, gone, u);
    if u == gone {
      TotalEmpty(ActiveFiles(WithoutOwner(s.secrets, gone), s.files, u));
      TotalEmpty(QueuedFiles(WithoutPayer(s.outbox, gone), u));
    }
  }

  lemma DurableNonnegative(s: State, u: UserId)
    ensures
      Zero().Leq(Durable(s.secrets, s.files, s.outbox, u)) && Zero().Leq(Total(ActiveFiles(s.secrets, s.files, u)))
  {
    hide Total, OwnedSecrets, ActiveFiles, QueuedFiles;
    RowsNonnegative(s.secrets, s.files, s.outbox, u);
  }

  // ---------- Usage reads stay good ----------

  lemma TrackSettled(rd: Reader, s: State, rid: ReservationId)
    requires rid in s.redis.holds && rid.request in s.landed
    requires Tracks(rd, s.redis.holds, s.landed, s.secrets, s.files, s.outbox)
    ensures
      var hold := s.redis.holds[rid];
      Tracks(Settled(rd, rid.request, hold.user, hold.delta), s.redis.holds - {rid}, s.landed, s.secrets, s.files,
             s.outbox)
  {
    hide Total, Durable, Backed;
    BackedRemoved(s.redis.holds, s.landed, rd.sawSecrets, rid, rd.user);
    BackedRemoved(s.redis.holds, s.landed, rd.sawFiles, rid, rd.user);
  }

  lemma TrackUndone(rd: Reader, s: State, rid: ReservationId)
    requires rid in s.redis.holds && rid.request !in s.landed
    requires Tracks(rd, s.redis.holds, s.landed, s.secrets, s.files, s.outbox)
    ensures Tracks(rd, s.redis.holds - {rid}, s.landed, s.secrets, s.files, s.outbox)
  {
    hide Total, Durable, Backed;
    BackedRemoved(s.redis.holds, s.landed, rd.sawSecrets, rid, rd.user);
    BackedRemoved(s.redis.holds, s.landed, rd.sawFiles, rid, rd.user);
  }

  lemma TrackReserved(rd: Reader, s: State, rid: ReservationId, hold: Hold)
    requires rid !in s.redis.holds && rid.request !in s.landed
    requires Tracks(rd, s.redis.holds, s.landed, s.secrets, s.files, s.outbox)
    ensures Tracks(rd, s.redis.holds[rid := hold], s.landed, s.secrets, s.files, s.outbox)
  {
    hide Total, Durable, Backed;
    HoldAdded(s.redis.holds, s.landed, rd.sawSecrets, rid, hold, rd.user);
    HoldAdded(s.redis.holds, s.landed, rd.sawFiles, rid, hold, rd.user);
  }

  /** Rows may disappear under a usage read: a read in progress only over-reports then. */
  lemma TrackFewerRows(rd: Reader, s: State, s': State)
    requires Tracks(rd, s.redis.holds, s.landed, s.secrets, s.files, s.outbox)
    requires Durable(s'.secrets, s'.files, s'.outbox, rd.user).Leq(Durable(s.secrets, s.files, s.outbox, rd.user))
    requires
      Total(ActiveFiles(s'.secrets, s'.files, rd.user)).bytes <= Total(ActiveFiles(s.secrets, s.files, rd.user)).bytes
    ensures Tracks(rd, s.redis.holds, s.landed, s'.secrets, s'.files, s'.outbox)
  {
    hide Total, Durable, Known, ActiveFiles;
  }

  /** Landing raises what a read accounts for by at least what it raises the durable usage. */
  lemma KnownAfterLand(rd: Reader, s: State, j: nat)
    requires Shape(s) && CanLand(s, j) && rd.sawSecrets <= s.landed && rd.sawFiles <= s.landed
    ensures
      var known, known' := Known(rd, s.redis.holds, s.landed),
                           Known(Strayed(rd, Payer(s, j), Stray(s, j)), s.redis.holds, s.landed + {j});
      var gain := For(Payer(s, j) == Owned(rd.user), Gain(s.jobs[j]));
      && (rd.progress >= 1 ==> known.secrets + gain.secrets <= known'.secrets)
      && (rd.progress >= 2 ==> known.bytes + gain.bytes <= known'.bytes)
  {
    hide Total, Backed, Shape, Own, Stray, Payer;
    assert j !in s.landed by { LandIsNew(s, j); }
    LandedSums(s.redis.holds, s.landed, rd.sawSecrets, j, rd.user);
    LandedSums(s.redis.holds, s.landed, rd.sawFiles, j, rd.user);
    GainIsBackedOrStray(s, j, rd.user);
  }

  lemma LandIsNew(s: State, j: nat)
    requires Shape(s) && CanLand(s, j)
    ensures j !in s.landed && j !in s.secrets && j !in s.files
  {
  }

  lemma TrackLanded(rd: Reader, s: State, j: nat, reported: bool)
    requires Shape(s) && CanLand(s, j) && rd.sawSecrets <= s.landed && rd.sawFiles <= s.landed
    requires Tracks(rd, s.redis.holds, s.landed, s.secrets, s.files, s.outbox)
    ensures
      var s' := DoLand(s, j, reported);
      Tracks(Strayed(rd, Payer(s, j), Stray(s, j)), s.redis.holds, s'.landed, s'.secrets, s'.files, s'.outbox)
  {
    hide Total, Known, Shape, Payer, Stray, LandedSecrets, LandedFiles, Durable, ActiveFiles, Strayed, Gain;
    StrayedOnlyMisses(rd, Payer(s, j), Stray(s, j));
    KnownAfterLand(rd, s, j);
    DurableAfterLand(s, j, rd.user);
  }

  lemma StrayedOnlyMisses(rd: Reader, payer: Owner, stray: Amount)
    ensures Strayed(rd, payer, stray).user == rd.user && Strayed(rd, payer, stray).progress == rd.progress
  {
  }

  lemma DurableAfterLand(s: State, j: nat, u: UserId)
    requires Shape(s) && CanLand(s, j)
    ensures
      var secrets, files := LandedSecrets(s.secrets, j, s.jobs[j]), LandedFiles(s.files, j, s.jobs[j]);
      var gain := For(Payer(s, j) == Owned(u), Gain(s.jobs[j]));
      && Durable(secrets, files, s.outbox, u) == Durable(s.secrets, s.files, s.outbox, u).Plus(gain)
      && Total(ActiveFiles(secrets, files, u)).bytes == Total(ActiveFiles(s.secrets, s.files, u)).bytes + gain.bytes
  {
    hide Total, OwnedSecrets, ActiveFiles, QueuedFiles;
    LandIsNew(s, j);
    RowsAfterLand(s.secrets, s.files, s.outbox, j, s.jobs[j], u);
  }

  lemma NothingNewYet(holds: map<ReservationId, Hold>, landed: set<nat>, u: UserId)
    ensures Total(Backed(holds, landed, landed, u)) == Zero()
  {
    hide Total, Backed;
    BackedAre(holds, landed, landed, u);
    TotalEmpty(Backed(holds, landed, landed, u));
  }

  lemma TrackRead(s: State, r: nat)
    requires r in s.readers && s.readers[r].progress < 3
    requires Tracks(s.readers[r], s.redis.holds, s.landed, s.secrets, s.files, s.outbox)
    ensures Tracks(DoRead(s, r).readers[r], s.redis.holds, s.landed, s.secrets, s.files, s.outbox)
  {
    hide Total, Backed, OwnedSecrets, ActiveFiles, QueuedFiles;
    NothingNewYet(s.redis.holds, s.landed, s.readers[r].user);
  }

  // ---------- Every step keeps the invariant ----------

  lemma ReleaseKeepsUser(s: State, rid: ReservationId, u: UserId)
    requires Shape(s) && rid in s.redis.holds && Covers(s, u) && Bounded(s, u)
    ensures Covers(Unreserve(s, rid), u) && Bounded(Unreserve(s, rid), u)
  {
    hide Load, Limit, Total, Twice, PhasesFit, RowsFit, PendingFits, ReadersFit;
    assert Fits(s.jobs, rid, s.redis.holds[rid]);
    LoadAfterRelease(s, rid, u);
    TwiceRemoved(s.redis.holds, s.doubled, rid, u);
  }

  lemma CommitKeepsUser(s: State, rid: ReservationId, u: UserId)
    requires Shape(s) && rid in s.redis.holds && rid.request in s.landed && Covers(s, u) && Bounded(s, u)
    ensures Covers(SettleHold(s, rid), u) && Bounded(SettleHold(s, rid), u)
  {
    hide Load, Limit, Total, Twice, PhasesFit, RowsFit, PendingFits, ReadersFit, DoublesFit;
    assert Fits(s.jobs, rid, s.redis.holds[rid]);
    LoadAfterRelease(s, rid, u);
    TwiceRemoved(s.redis.holds, s.doubled, rid, u);
  }

  /** A user whose usage hash does not exist yet has no reservations. */
  lemma AbsentUserHoldsNothing(s: State, seen: set<nat>, u: UserId)
    requires Shape(s) && u !in s.redis.usage
    ensures
      Total(Unlanded(s.redis.holds, s.landed, u)) == Zero() && Total(Backed(s.redis.holds, s.landed, seen, u)) == Zero()
    ensures Total(Twice(s.redis.holds, s.doubled, u)) == Zero()
  {
    hide Total, Unlanded, Backed, Twice, PhasesFit, RowsFit, PendingFits, ReadersFit, DoublesFit;
    UnlandedAre(s.redis.holds, s.landed, u);
    BackedAre(s.redis.holds, s.landed, seen, u);
    TwiceAre(s.redis.holds, s.doubled, u);
    TotalEmpty(Unlanded(s.redis.holds, s.landed, u));
    TotalEmpty(Backed(s.redis.holds, s.landed, seen, u));
    TotalEmpty(Twice(s.redis.holds, s.doubled, u));
  }

  /** The snapshot that initializes an absent counter may be old, but misses no more than recorded. */
  lemma InitialCounterCovers(s: State, rd: Reader)
    requires Shape(s) && rd.user !in s.redis.usage && rd.progress == 3
    requires Tracks(rd, s.redis.holds, s.landed, s.secrets, s.files, s.outbox)
    ensures Load(s, rd.user).Leq(rd.snap.Plus(rd.miss))
    ensures Total(Twice(s.redis.holds, s.doubled, rd.user)) == Zero()
  {
    hide Total, Durable, Backed, Unlanded, Twice, Shape;
    AbsentUserHoldsNothing(s, rd.sawSecrets, rd.user);
    AbsentUserHoldsNothing(s, rd.sawFiles, rd.user);
  }

  lemma NewHoldKeepsTwice(s: State, r: nat, j: nat, at: int, u: UserId)
    requires Shape(s) && Enabled(s, TryReserve(r, j, at))
    ensures Twice(DoReserve(s, r, j, at).redis.holds, s.doubled, u) == Twice(s.redis.holds, s.doubled, u)
  {
    hide Twice, Ask, Charge, HoldsFit, PhasesFit, RowsFit, PendingFits, ReadersFit;
    var job := s.jobs[j];
    assert ReservationId(j, Charge(job)) !in s.redis.holds by { ReservationIsNew(s, j); }
    AskEffect(s, r, j, at);
    NewHoldIsNotTwice(s.redis.holds, s.doubled, ReservationId(j, Charge(job)),
                      Hold(job.user, job.Delta(Charge(job)), false), u);
  }

  lemma ReserveKeepsUser(s: State, r: nat, j: nat, at: int, u: UserId)
    requires Shape(s) && Enabled(s, TryReserve(r, j, at)) && Covers(s, u) && Bounded(s, u)
    requires Tracks(s.readers[r], s.redis.holds, s.landed, s.secrets, s.files, s.outbox)
    ensures Covers(DoReserve(s, r, j, at), u) && Bounded(DoReserve(s, r, j, at), u)
  {
    hide Load, Shape, Charge, Tracks, Ask, Limit, Total, Twice;
    var job := s.jobs[j];
    ReservationIsNew(s, j);
    LoadAfterReserve(s, r, j, at, u);
    NewHoldKeepsTwice(s, r, j, at, u);
    AskEffect(s, r, j, at);
    if job.user !in s.redis.usage {
      InitialCounterCovers(s, s.readers[r]);
    }
    TwiceIsNotNegative(s, u);
  }

  lemma TwiceIsNotNegative(s: State, u: UserId)
    requires Shape(s)
    ensures Zero().Leq(Total(Twice(s.redis.holds, s.doubled, u)))
  {
    hide Total, Twice, PhasesFit, RowsFit, PendingFits, ReadersFit, DoublesFit;
    TwiceNonnegative(s.redis.holds, s.jobs, s.doubled, u);
  }

  /** The counter that reconciliation writes misses no more than the read has recorded, over and above what it now holds
      twice. */
  lemma ReconciledCounterCovers(s: State, rd: Reader)
    requires HoldsFit(s.redis, s.jobs) && ReaderFits(rd, s.landed) && rd.progress == 3
    requires Tracks(rd, s.redis.holds, s.landed, s.secrets, s.files, s.outbox)
    ensures
      Load(s, rd.user).Plus(Total(Twice(s.redis.holds, Recounted(s.redis.holds, s.doubled, rd), rd.user)))
      .Leq(rd.snap.Plus(Owed(s.redis, rd.user, s.redis.index.Keys)).Plus(rd.miss))
  {
    hide Total, Durable, Unlanded, Backed, Owed, Twice, Recounted, HoldsFit;
    ReconcileSum(s.redis, s.jobs, s.landed, s.doubled, rd);
  }

  lemma ReaderIsSound(s: State, r: nat)
    requires Shape(s) && r in s.readers
    ensures ReaderFits(s.readers[r], s.landed) && HoldsFit(s.redis, s.jobs)
  {
  }

  lemma ReconcileKeepsOwn(s: State, r: nat)
    requires r in s.readers && s.readers[r].progress == 3
    requires Shape(s) && Bounded(s, s.readers[r].user)
    requires Tracks(s.readers[r], s.redis.holds, s.landed, s.secrets, s.files, s.outbox)
    ensures Covers(RunReconcile(s, r), s.readers[r].user) && Bounded(RunReconcile(s, r), s.readers[r].user)
  {
    hide Total, Durable, Unlanded, Owed, Limit, Tracks, Twice, Recounted, Shape, HoldsFit, ReaderFits;
    ReaderIsSound(s, r);
    ReconciledCounterCovers(s, s.readers[r]);
  }

  lemma ReconcileKeepsOther(s: State, r: nat, u: UserId)
    requires r in s.readers && u != s.readers[r].user
    requires Covers(s, u) && Bounded(s, u)
    ensures Covers(RunReconcile(s, r), u) && Bounded(RunReconcile(s, r), u)
  {
    hide Total, Durable, Unlanded, Owed, Limit, Twice, Recounted;
    OthersTwice(s.redis.holds, s.doubled, s.readers[r], u);
  }

  lemma ReconcileKeepsUser(s: State, r: nat, u: UserId)
    requires Shape(s) && Enabled(s, DoReconcile(r)) && Covers(s, u) && Bounded(s, u)
    requires Tracks(s.readers[r], s.redis.holds, s.landed, s.secrets, s.files, s.outbox)
    ensures Covers(RunReconcile(s, r), u) && Bounded(RunReconcile(s, r), u)
  {
    hide Covers, Bounded, Tracks, Shape, RunReconcile;
    if u == s.readers[r].user {
      ReconcileKeepsOwn(s, r);
    } else {
      ReconcileKeepsOther(s, r, u);
    }
  }

  lemma LandKeepsUser(s: State, j: nat, reported: bool, u: UserId)
    requires Shape(s) && CanLand(s, j) && Covers(s, u) && Bounded(s, u)
    ensures Covers(DoLand(s, j, reported), u) && Bounded(DoLand(s, j, reported), u)
  {
    hide Load, Shape, Payer, Stray, Gain, Limit, Total, Twice, Own;
    LoadAfterLand(s, j, reported, u);
    GainIsBackedOrStray(s, j, u);
  }

  lemma CleanupKeepsUser(s: State, step: Step, u: UserId)
    requires Shape(s) && Enabled(s, step) && Covers(s, u) && Bounded(s, u)
    requires step.DeleteSecret? || step.EraseQueued? || step.MarkProcessed? || step.DeleteUser?
    ensures Covers(Apply(s, step), u) && Bounded(Apply(s, step), u)
  {
    hide Apply, Enabled, Shape, Covers, Bounded, OnlyRowsChange, Durable, Total, ActiveFiles;
    RowsOnlyLower(s, step, u);
    FewerRowsKeepUser(s, Apply(s, step), u);
  }

  lemma FewerRowsKeepUser(s: State, s': State, u: UserId)
    requires Covers(s, u) && Bounded(s, u) && OnlyRowsChange(s, s')
    requires Durable(s'.secrets, s'.files, s'.outbox, u).Leq(Durable(s.secrets, s.files, s.outbox, u))
    ensures Covers(s', u) && Bounded(s', u)
  {
    hide Durable, Unlanded, Total, Twice, Limit;
  }

  /** What cleanup changes about one user's rows and about nothing else. */
  lemma RowsOnlyLower(s: State, step: Step, u: UserId)
    requires Shape(s) && Enabled(s, step)
    requires step.DeleteSecret? || step.EraseQueued? || step.MarkProcessed? || step.DeleteUser?
    ensures
      var s' := Apply(s, step);
      && Durable(s'.secrets, s'.files, s'.outbox, u).Leq(Durable(s.secrets, s.files, s.outbox, u))
      && Total(ActiveFiles(s'.secrets, s'.files, u)).bytes <= Total(ActiveFiles(s.secrets, s.files, u)).bytes
    ensures OnlyRowsChange(s, Apply(s, step))
  {
    hide Durable, Total, ActiveFiles, Shape, Remaining, Enqueued, WithoutOwner, WithoutPayer;
    match step
    case DeleteSecret(id) => DeletionConservesBytes(s, id, u);
    case EraseQueued(k) => ProcessingFreesBilledBytes(s, k, Erased, u);
    case MarkProcessed(k) =>
      BillIsNotNegative(s, k);
      ProcessingFreesBilledBytes(s, k, Processed, u);
    case DeleteUser(gone) =>
      DurableNonnegative(s, u);
      DisowningFreesOne(s, gone, u);
  }

  lemma BillIsNotNegative(s: State, k: nat)
    requires Shape(s) && k in s.outbox
    ensures s.outbox[k].billed >= 0
  {
  }

  predicate OnlyRowsChange(s: State, s': State) {
    && s'.redis == s.redis && s'.landed == s.landed && s'.readers == s.readers && s'.doubled == s.doubled
    && s'.limits == s.limits && s'.debt == s.debt && s'.excess == s.excess
  }

  lemma ReleaseKeepsTracks(s: State, rid: ReservationId)
    requires rid in s.redis.holds && AllTrack(s)
    ensures AllTrack(Unreserve(s, rid))
    ensures rid.request in s.landed ==> AllTrack(SettleHold(s, rid))
  {
    hide Tracks;
    forall r | r in s.readers
      ensures Tracks(Unreserve(s, rid).readers[r], s.redis.holds - {rid}, s.landed, s.secrets, s.files, s.outbox)
      ensures rid.request in s.landed ==> Unreserve(s, rid).readers[r] == SettleHold(s, rid).readers[r]
    {
      if rid.request in s.landed {
        TrackSettled(s.readers[r], s, rid);
      } else {
        TrackUndone(s.readers[r], s, rid);
      }
    }
  }

  lemma ReserveKeepsTracks(s: State, r: nat, j: nat, at: int)
    requires Shape(s) && Enabled(s, TryReserve(r, j, at)) && AllTrack(s)
    ensures AllTrack(DoReserve(s, r, j, at))
  {
    hide Tracks, Ask, Charge, Shape;
    AskEffect(s, r, j, at);
    ReservationIsNew(s, j);
    var job := s.jobs[j];
    forall other | other in s.readers {
      TrackReserved(s.readers[other], s, ReservationId(j, Charge(job)), Hold(job.user, job.Delta(Charge(job)), false));
    }
  }

  lemma LandKeepsTracks(s: State, j: nat, reported: bool)
    requires Shape(s) && CanLand(s, j) && AllTrack(s)
    ensures AllTrack(DoLand(s, j, reported))
  {
    hide Tracks, Payer, Stray, LandedSecrets, LandedFiles, Strayed;
    hide HoldsFit, PhasesFit, RowsFit, PendingFits;
    forall r | r in s.readers {
      TrackLanded(s.readers[r], s, j, reported);
    }
  }

  lemma CleanupKeepsTracks(s: State, step: Step)
    requires Shape(s) && Enabled(s, step) && AllTrack(s)
    requires step.DeleteSecret? || step.EraseQueued? || step.MarkProcessed? || step.DeleteUser?
    ensures AllTrack(Apply(s, step))
  {
    hide Tracks, Durable, Total, ActiveFiles, Shape, Apply;
    var s' := Apply(s, step);
    RowsOnlyLower(s, step, 0);
    forall r | r in s.readers
      ensures Tracks(s.readers[r], s.redis.holds, s.landed, s'.secrets, s'.files, s'.outbox)
    {
      RowsOnlyLower(s, step, s.readers[r].user);
      TrackFewerRows(s.readers[r], s, s');
    }
  }

  lemma ReadKeepsTracks(s: State, r: nat)
    requires r in s.readers && s.readers[r].progress < 3 && AllTrack(s)
    ensures AllTrack(DoRead(s, r))
  {
    hide Tracks;
    TrackRead(s, r);
  }

  lemma OtherReadersKeepTracks(s: State, r: nat, user: UserId)
    requires AllTrack(s)
    ensures AllTrack(DoStartRead(s, r, user))
    ensures r in s.readers ==> AllTrack(RunReconcile(s, r))
  {
    hide Known, Durable, Total, ActiveFiles, Owed, Recounted;
  }

  lemma ReadingKeepsUser(s: State, step: Step, u: UserId)
    requires Enabled(s, step) && (step.StartRead? || step.Read?) && Covers(s, u) && Bounded(s, u)
    ensures Covers(Apply(s, step), u) && Bounded(Apply(s, step), u)
  {
    hide Durable, Unlanded, Limit, Total, Twice, ReadOn;
  }

  predicate Silent(step: Step) {
    || step.Arrive? || step.StageUpload? || step.StoreObject? || step.Fail? || step.Crash?
    || step.DeleteOwnObject? || step.Fetch? || step.EraseFetched? || step.DropPending?
  }

  predicate NotEvenRowsChange(s: State, s': State) {
    OnlyRowsChange(s, s') && s'.secrets == s.secrets && s'.files == s.files && s'.outbox == s.outbox
  }

  lemma HandlersAreSilent(s: State, step: Step)
    requires Enabled(s, step) && (step.Arrive? || step.StageUpload? || step.StoreObject? || step.Fail? || step.Crash?)
    ensures NotEvenRowsChange(s, Apply(s, step))
  {
  }

  lemma SweepsAreSilent(s: State, step: Step)
    requires Enabled(s, step)
    requires step.DeleteOwnObject? || step.Fetch? || step.EraseFetched? || step.DropPending?
    ensures NotEvenRowsChange(s, Apply(s, step))
  {
  }

  lemma SameRowsKeepQuota(s: State, s': State)
    requires QuotaInv(s) && NotEvenRowsChange(s, s')
    ensures QuotaInv(s')
  {
    hide Covers, Bounded, Tracks, Durable;
    forall u ensures Covers(s', u) && Bounded(s', u) {
      assert Covers(s, u) && Bounded(s, u);
      FewerRowsKeepUser(s, s', u);
    }
  }

  lemma SilentStepsKeepQuota(s: State, step: Step)
    requires Enabled(s, step) && Silent(step) && QuotaInv(s)
    ensures QuotaInv(Apply(s, step))
  {
    hide QuotaInv, Apply, Enabled, NotEvenRowsChange;
    if step.DeleteOwnObject? || step.Fetch? || step.EraseFetched? || step.DropPending? {
      SweepsAreSilent(s, step);
    } else {
      HandlersAreSilent(s, step);
    }
    SameRowsKeepQuota(s, Apply(s, step));
  }

  lemma SettlingIsLanded(s: State, rid: ReservationId)
    requires Shape(s) && Enabled(s, DoCommit(rid))
    ensures rid.request in s.landed
  {
  }

  lemma StepKeepsTracks(s: State, step: Step)
    requires Shape(s) && Enabled(s, step) && QuotaInv(s)
    ensures AllTrack(Apply(s, step))
  {
    hide Covers, Bounded, Shape, Tracks;
    if Silent(step) {
      SilentStepsKeepQuota(s, step);
    } else {
      match step
      case StartRead(r, user) => OtherReadersKeepTracks(s, r, user);
      case Read(r) => ReadKeepsTracks(s, r);
      case TryReserve(r, j, at) => ReserveKeepsTracks(s, r, j, at);
      case DoReconcile(r) => OtherReadersKeepTracks(s, r, s.readers[r].user);
      case Land(j, reported) => LandKeepsTracks(s, j, reported);
      case DoRelease(rid) => ReleaseKeepsTracks(s, rid);
      case DoCommit(rid) => SettlingIsLanded(s, rid); ReleaseKeepsTracks(s, rid);
      case _ => CleanupKeepsTracks(s, step);
    }
  }

  lemma StepKeepsUser(s: State, step: Step, u: UserId)
    requires Shape(s) && Enabled(s, step) && QuotaInv(s)
    ensures Covers(Apply(s, step), u) && Bounded(Apply(s, step), u)
  {
    hide Shape, Covers, Bounded, Tracks;
    if Silent(step) {
      SilentStepsKeepQuota(s, step);
    } else {
      match step
      case StartRead(_, _) => ReadingKeepsUser(s, step, u);
      case Read(_) => ReadingKeepsUser(s, step, u);
      case TryReserve(r, j, at) => ReserveKeepsUser(s, r, j, at, u);
      case DoReconcile(r) => ReconcileKeepsUser(s, r, u);
      case Land(j, reported) => LandKeepsUser(s, j, reported, u);
      case DoRelease(rid) => ReleaseKeepsUser(s, rid, u);
      case DoCommit(rid) => SettlingIsLanded(s, rid); CommitKeepsUser(s, rid, u);
      case _ => CleanupKeepsUser(s, step, u);
    }
  }

  // ---------- What changes the bytes a user is billed for ----------

  lemma LandChangesBytes(s: State, j: nat, reported: bool, u: UserId)
    requires Shape(s) && CanLand(s, j)
    ensures
      var s' := DoLand(s, j, reported);
      Durable(s'.secrets, s'.files, s'.outbox, u)
      == Durable(s.secrets, s.files, s.outbox, u).Plus(For(Payer(s, j) == Owned(u), Gain(s.jobs[j])))
  {
    hide Durable, Total, ActiveFiles, Shape, LandedSecrets, LandedFiles, Payer, Gain, Stray;
    DurableAfterLand(s, j, u);
  }

  /** What a step does to the rows that usage is computed from: all but five leave them alone. */
  lemma OtherStepsKeepRows(s: State, step: Step)
    requires Enabled(s, step)
    requires !step.Land? && !step.DeleteSecret? && !step.EraseQueued? && !step.MarkProcessed? && !step.DeleteUser?
    ensures
      Apply(s, step).secrets == s.secrets && Apply(s, step).files == s.files && Apply(s, step).outbox == s.outbox
  {
    hide Total, Ask, ReadOn, SettleAllReaders, Release, Commit, Reconcile, Recounted;
  }

  ghost function BytesOf(s: State, u: UserId): int {
    Durable(s.secrets, s.files, s.outbox, u).bytes
  }

  ghost function BytesAfter(s: State, step: Step, u: UserId): int
    requires Enabled(s, step)
  {
    match step
    case Land(j, _) => BytesOf(s, u) + if Payer(s, j) == Owned(u) then Gain(s.jobs[j]).bytes else 0
    case MarkProcessed(k) => BytesOf(s, u) - if s.outbox[k].owner == Owned(u) then s.outbox[k].billed else 0
    case DeleteUser(gone) => if gone == u then 0 else BytesOf(s, u)
    case _ => BytesOf(s, u)
  }

  ghost predicate BytesFit(s: State, step: Step, u: UserId)
    requires Enabled(s, step)
  {
    BytesOf(Apply(s, step), u) == BytesAfter(s, step, u)
  }

  lemma LandBytes(s: State, j: nat, reported: bool, u: UserId)
    requires Shape(s) && Enabled(s, Land(j, reported))
    ensures BytesFit(s, Land(j, reported), u)
  {
    hide Durable, Shape, Gain, Payer, Stray, LandedSecrets, LandedFiles, StrayAll;
    LandChangesBytes(s, j, reported, u);
  }

  lemma DeletionBytes(s: State, id: nat, u: UserId)
    requires Shape(s) && Enabled(s, DeleteSecret(id))
    ensures BytesFit(s, DeleteSecret(id), u)
  {
    hide Durable, Total, ActiveFiles, Shape, Remaining, Enqueued;
    DeletionConservesBytes(s, id, u);
  }

  lemma EraseBytes(s: State, k: nat, u: UserId)
    requires Shape(s) && Enabled(s, EraseQueued(k))
    ensures BytesFit(s, EraseQueued(k), u)
  {
    hide Durable, Shape;
    ProcessingFreesBilledBytes(s, k, Erased, u);
  }

  lemma MarkBytes(s: State, k: nat, u: UserId)
    requires Shape(s) && Enabled(s, MarkProcessed(k))
    ensures BytesFit(s, MarkProcessed(k), u)
  {
    hide Durable, Shape;
    ProcessingFreesBilledBytes(s, k, Processed, u);
  }

  lemma UserBytes(s: State, gone: UserId, u: UserId)
    requires Shape(s) && Enabled(s, DeleteUser(gone))
    ensures BytesFit(s, DeleteUser(gone), u)
  {
    hide Durable, Total, ActiveFiles, Shape, WithoutOwner, WithoutPayer;
    DisowningFreesOne(s, gone, u);
  }

  lemma OtherBytes(s: State, step: Step, u: UserId)
    requires Enabled(s, step)
    requires
      !step.Land? && !step.DeleteSecret? && !step.EraseQueued? && !step.MarkProcessed? && !step.DeleteUser?
    ensures BytesFit(s, step, u)
  {
    hide Durable, Apply, Enabled;
    OtherStepsKeepRows(s, step);
  }

  /** Over every step: a user's bytes rise only when a version of theirs lands, by its size; they fall only when an
      outbox row of theirs is marked processed, by what was billed, or when the user is deleted. */
  lemma BytesChangeExactly(s: State, step: Step, u: UserId)
    requires Shape(s) && Enabled(s, step)
    ensures BytesOf(Apply(s, step), u) == BytesAfter(s, step, u)
  {
    hide BytesOf, BytesAfter, Apply, Enabled, Shape;
    assert BytesFit(s, step, u) by {
      match step
      case Land(j, reported) => LandBytes(s, j, reported, u);
      case DeleteSecret(id) => DeletionBytes(s, id, u);
      case EraseQueued(k) => EraseBytes(s, k, u);
      case MarkProcessed(k) => MarkBytes(s, k, u);
      case DeleteUser(gone) => UserBytes(s, gone, u);
      case _ => OtherBytes(s, step, u);
    }
  }
}
