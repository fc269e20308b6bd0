/** How the sums behind the quota change when one reservation, row or transaction changes. */
module UsageSums {
  import opened Amounts
  import opened QuotaScripts
  import opened Backend

  // ---------- Reservations ----------

  lemma HoldAdded(holds: map<ReservationId, Hold>, landed: set<nat>, seen: set<nat>, rid: ReservationId, hold: Hold,
                  u: UserId)
    requires rid !in holds && rid.request !in landed
    ensures
      Total(Unlanded(holds[rid := hold], landed, u))
      == Total(Unlanded(holds, landed, u)).Plus(if hold.user == u then hold.delta else Zero())
    ensures Backed(holds[rid := hold], landed, seen, u) == Backed(holds, landed, seen, u)
  {
    hide Total, Unlanded, Backed;
    var before, after := Unlanded(holds, landed, u), Unlanded(holds[rid := hold], landed, u);
    UnlandedAre(holds, landed, u);
    UnlandedAre(holds[rid := hold], landed, u);
    if hold.user == u {
      assert after == before[rid := hold.delta];
      TotalPut(before, rid, hold.delta);
    } else {
      assert after == before;
    }
    HoldAheadIsNotBacked(holds, landed, seen, rid, hold, u);
  }

  lemma HoldAheadIsNotBacked(holds: map<ReservationId, Hold>, landed: set<nat>, seen: set<nat>, rid: ReservationId,
                             hold: Hold, u: UserId)
    requires rid !in holds && rid.request !in landed
    ensures Backed(holds[rid := hold], landed, seen, u) == Backed(holds, landed, seen, u)
  {
    hide Backed;
    BackedAre(holds, landed, seen, u);
    BackedAre(holds[rid := hold], landed, seen, u);
  }

  lemma UnlandedRemoved(holds: map<ReservationId, Hold>, landed: set<nat>, rid: ReservationId, u: UserId)
    requires rid in holds
    ensures
      Total(Unlanded(holds, landed, u))
      == Total(Unlanded(holds - {rid}, landed, u))
         .Plus(if holds[rid].user == u && rid.request !in landed then holds[rid].delta else Zero())
  {
    hide Total, Unlanded;
    var before, after := Unlanded(holds, landed, u), Unlanded(holds - {rid}, landed, u);
    UnlandedAre(holds, landed, u);
    UnlandedAre(holds - {rid}, landed, u);
    if holds[rid].user == u && rid.request !in landed {
      assert after == before - {rid};
      TotalTake(before, rid);
    } else {
      assert after == before;
    }
  }

  lemma BackedRemoved(holds: map<ReservationId, Hold>, landed: set<nat>, seen: set<nat>, rid: ReservationId, u: UserId)
    requires rid in holds
    ensures
      Total(Backed(holds, landed, seen, u))
      == Total(Backed(holds - {rid}, landed, seen, u))
         .Plus(if holds[rid].user == u && rid.request in landed && rid.request !in seen then holds[rid].delta
               else Zero())
  {
    hide Total, Backed;
    var before, after := Backed(holds, landed, seen, u), Backed(holds - {rid}, landed, seen, u);
    BackedAre(holds, landed, seen, u);
    BackedAre(holds - {rid}, landed, seen, u);
    if holds[rid].user == u && rid.request in landed && rid.request !in seen {
      assert after == before - {rid};
      TotalTake(before, rid);
    } else {
      assert after == before;
    }
  }

  /** The reservations of one request that are charged to a user. */
  ghost function Own(holds: map<ReservationId, Hold>, j: nat, u: UserId): map<ReservationId, Amount> {
    Deltas(holds, set rid | rid in holds && holds[rid].user == u && rid.request == j)
  }

  lemma OwnAre(holds: map<ReservationId, Hold>, j: nat, u: UserId)
    ensures
      var m := Own(holds, j, u);
      && (forall rid :: rid in m <==> rid in holds && holds[rid].user == u && rid.request == j)
      && (forall rid :: rid in m ==> m[rid] == holds[rid].delta)
  {
    DeltasAre(holds, set rid | rid in holds && holds[rid].user == u && rid.request == j);
  }

  lemma LandedSums(holds: map<ReservationId, Hold>, landed: set<nat>, seen: set<nat>, j: nat, u: UserId)
    requires j !in landed && j !in seen
    ensures Total(Unlanded(holds, landed, u)) == Total(Unlanded(holds, landed + {j}, u)).Plus(Total(Own(holds, j, u)))
    ensures
      Total(Backed(holds, landed + {j}, seen, u)) == Total(Backed(holds, landed, seen, u)).Plus(Total(Own(holds, j, u)))
  {
    hide Total, Unlanded, Backed, Own;
    LeavesUnlanded(holds, landed, j, u);
    TotalSplit(Unlanded(holds, landed, u), Unlanded(holds, landed + {j}, u), Own(holds, j, u));
    EntersBacked(holds, landed, seen, j, u);
    TotalSplit(Backed(holds, landed + {j}, seen, u), Backed(holds, landed, seen, u), Own(holds, j, u));
  }

  lemma LeavesUnlanded(holds: map<ReservationId, Hold>, landed: set<nat>, j: nat, u: UserId)
    requires j !in landed
    ensures Splits(Unlanded(holds, landed, u), Unlanded(holds, landed + {j}, u), Own(holds, j, u))
  {
    hide Unlanded, Own;
    UnlandedAre(holds, landed, u);
    UnlandedAre(holds, landed + {j}, u);
    OwnAre(holds, j, u);
  }

  lemma EntersBacked(holds: map<ReservationId, Hold>, landed: set<nat>, seen: set<nat>, j: nat, u: UserId)
    requires j !in landed && j !in seen
    ensures Splits(Backed(holds, landed + {j}, seen, u), Backed(holds, landed, seen, u), Own(holds, j, u))
  {
    hide Backed, Own;
    BackedAre(holds, landed + {j}, seen, u);
    BackedAre(holds, landed, seen, u);
    OwnAre(holds, j, u);
  }

  lemma OwnEntries(holds: map<ReservationId, Hold>, jobs: map<nat, Job>, j: nat, u: UserId)
    requires j in jobs && forall rid :: rid in holds ==> Fits(jobs, rid, holds[rid])
    ensures
      var own, one, two := Own(holds, j, u), ReservationId(j, Secrets), ReservationId(j, Bytes);
      && own.Keys - {one} - {two} == {}
      && (one in own <==> jobs[j].user == u && one in holds)
      && (two in own <==> jobs[j].user == u && two in holds)
      && (one in own ==> own[one] == Amount(1, 0))
      && (two in own ==> own[two] == Amount(0, jobs[j].size))
  {
    hide Own;
    OwnAre(holds, j, u);
    forall rid | rid in Own(holds, j, u)
      ensures rid == ReservationId(j, Secrets) || rid == ReservationId(j, Bytes)
    {
      match rid.charge
      case Secrets =>
      case Bytes =>
    }
    assert forall rid :: rid in holds && rid.request == j ==> Fits(jobs, rid, holds[rid]);
  }

  /** A request holds at most one reservation per dimension. */
  lemma OwnSum(holds: map<ReservationId, Hold>, jobs: map<nat, Job>, j: nat, u: UserId)
    requires j in jobs && forall rid :: rid in holds ==> Fits(jobs, rid, holds[rid])
    ensures
      Total(Own(holds, j, u))
      == if jobs[j].user != u then Zero()
         else Amount(if ReservationId(j, Secrets) in holds then 1 else 0,
                     if ReservationId(j, Bytes) in holds then jobs[j].size else 0)
  {
    hide Total, Own;
    OwnEntries(holds, jobs, j, u);
    TotalOfTwo(Own(holds, j, u), ReservationId(j, Secrets), ReservationId(j, Bytes));
  }

  lemma TwiceRemoved(holds: map<ReservationId, Hold>, doubled: set<ReservationId>, rid: ReservationId, u: UserId)
    requires rid in holds
    ensures
      Total(Twice(holds, doubled, u))
      == Total(Twice(holds - {rid}, doubled - {rid}, u))
         .Plus(if holds[rid].user == u && rid in doubled then holds[rid].delta else Zero())
  {
    hide Total, Twice;
    var before, after := Twice(holds, doubled, u), Twice(holds - {rid}, doubled - {rid}, u);
    TwiceAre(holds, doubled, u);
    TwiceAre(holds - {rid}, doubled - {rid}, u);
    if holds[rid].user == u && rid in doubled {
      assert after == before - {rid};
      TotalTake(before, rid);
    } else {
      assert after == before;
    }
  }

  lemma NewHoldIsNotTwice(holds: map<ReservationId, Hold>, doubled: set<ReservationId>, rid: ReservationId, hold: Hold,
                          u: UserId)
    requires rid !in doubled
    ensures Twice(holds[rid := hold], doubled, u) == Twice(holds, doubled, u)
  {
    hide Twice;
    TwiceAre(holds, doubled, u);
    TwiceAre(holds[rid := hold], doubled, u);
  }

  lemma OthersTwice(holds: map<ReservationId, Hold>, doubled: set<ReservationId>, rd: Reader, u: UserId)
    requires u != rd.user
    ensures Twice(holds, Recounted(holds, doubled, rd), u) == Twice(holds, doubled, u)
  {
    hide Twice;
    TwiceAre(holds, doubled, u);
    TwiceAre(holds, Recounted(holds, doubled, rd), u);
  }

  lemma ListedSplits(redis: Redis, landed: set<nat>, u: UserId)
    requires redis.WellFormed()
    ensures
      Splits(Listed(redis, u, redis.index.Keys), Unlanded(redis.holds, landed, u), Backed(redis.holds, landed, {}, u))
  {
    hide Unlanded, Backed, Deltas;
    DeltasAre(redis.holds, ListedIds(redis, u, redis.index.Keys));
    UnlandedAre(redis.holds, landed, u);
    BackedAre(redis.holds, landed, {}, u);
  }

  lemma BackedSplits(holds: map<ReservationId, Hold>, landed: set<nat>, doubled: set<ReservationId>, rd: Reader)
    requires rd.sawSecrets <= landed
    ensures
      Splits(Backed(holds, landed, {}, rd.user), Backed(holds, landed, rd.sawSecrets, rd.user),
             Twice(holds, Recounted(holds, doubled, rd), rd.user))
  {
    hide Backed, Twice;
    BackedAre(holds, landed, {}, rd.user);
    BackedAre(holds, landed, rd.sawSecrets, rd.user);
    TwiceAre(holds, Recounted(holds, doubled, rd), rd.user);
  }

  /** A read that has seen more leaves less to be added. */
  lemma BackedUnseen(holds: map<ReservationId, Hold>, jobs: map<nat, Job>, landed: set<nat>, seen: set<nat>,
                     seen': set<nat>, u: UserId)
    requires forall rid :: rid in holds ==> Fits(jobs, rid, holds[rid])
    requires seen <= seen'
    ensures Total(Backed(holds, landed, seen', u)).Leq(Total(Backed(holds, landed, seen, u)))
  {
    hide Total, Backed;
    BackedAre(holds, landed, seen, u);
    BackedAre(holds, landed, seen', u);
    assert forall rid :: rid in Backed(holds, landed, seen, u) ==> Fits(jobs, rid, holds[rid]);
    TotalPart(Backed(holds, landed, seen, u), Backed(holds, landed, seen', u));
  }

  lemma TwiceNonnegative(holds: map<ReservationId, Hold>, jobs: map<nat, Job>, doubled: set<ReservationId>, u: UserId)
    requires forall rid :: rid in holds ==> Fits(jobs, rid, holds[rid])
    ensures Zero().Leq(Total(Twice(holds, doubled, u)))
  {
    hide Total, Twice;
    TwiceAre(holds, doubled, u);
    assert forall rid :: rid in Twice(holds, doubled, u) ==> Fits(jobs, rid, holds[rid]);
    TotalNonnegative(Twice(holds, doubled, u));
  }

  /** What reconciliation adds to a finished read: the user's reservations, landed or not, each once. */
  lemma OwedExactly(redis: Redis, landed: set<nat>, u: UserId)
    requires redis.WellFormed()
    ensures
      Owed(redis, u, redis.index.Keys)
      == Total(Unlanded(redis.holds, landed, u)).Plus(Total(Backed(redis.holds, landed, {}, u)))
  {
    hide Total, Unlanded, Backed, Listed;
    ListedSplits(redis, landed, u);
    TotalSplit(Listed(redis, u, redis.index.Keys), Unlanded(redis.holds, landed, u),
               Backed(redis.holds, landed, {}, u));
  }

  /** The same, sorted by what the read has seen: the reservations ahead of the tables, those that landed after the
      read, and, a second time, those that the read has seen. */
  lemma ReconcileSum(redis: Redis, jobs: map<nat, Job>, landed: set<nat>, doubled: set<ReservationId>, rd: Reader)
    requires HoldsFit(redis, jobs) && ReaderFits(rd, landed) && rd.progress >= 2
    ensures
      var ahead := Total(Unlanded(redis.holds, landed, rd.user));
      var twice := Total(Twice(redis.holds, Recounted(redis.holds, doubled, rd), rd.user));
      var behind := Total(Backed(redis.holds, landed, rd.sawSecrets, rd.user));
      && Owed(redis, rd.user, redis.index.Keys) == ahead.Plus(behind).Plus(twice)
      && Total(Backed(redis.holds, landed, rd.sawFiles, rd.user)).Leq(behind)
  {
    hide Total, Unlanded, Backed, Listed, Twice, Recounted;
    var u := rd.user;
    OwedExactly(redis, landed, u);
    BackedSplits(redis.holds, landed, doubled, rd);
    TotalSplit(Backed(redis.holds, landed, {}, u), Backed(redis.holds, landed, rd.sawSecrets, u),
               Twice(redis.holds, Recounted(redis.holds, doubled, rd), u));
    BackedUnseen(redis.holds, jobs, landed, rd.sawSecrets, rd.sawFiles, u);
  }

  // ---------- Rows ----------

  lemma SecretInserted(secrets: map<nat, Owner>, files: map<nat, FileRow>, j: nat, owner: Owner, u: UserId)
    requires j !in secrets
    requires forall k :: k in files ==> files[k].secret in secrets
    ensures |OwnedSecrets(secrets[j := owner], u)| == |OwnedSecrets(secrets, u)| + if owner == Owned(u) then 1 else 0
    ensures ActiveFiles(secrets[j := owner], files, u) == ActiveFiles(secrets, files, u)
  {
    hide OwnedSecrets, ActiveFiles;
    OneMoreSecret(secrets, j, owner, u);
    NewSecretHasNoFiles(secrets, files, j, owner, u);
  }

  lemma OneMoreSecret(secrets: map<nat, Owner>, j: nat, owner: Owner, u: UserId)
    requires j !in secrets
    ensures |OwnedSecrets(secrets[j := owner], u)| == |OwnedSecrets(secrets, u)| + if owner == Owned(u) then 1 else 0
  {
    var before, after := OwnedSecrets(secrets, u), OwnedSecrets(secrets[j := owner], u);
    if owner == Owned(u) {
      assert after == before + {j};
    } else {
      assert after == before;
    }
  }

  lemma NewSecretHasNoFiles(secrets: map<nat, Owner>, files: map<nat, FileRow>, j: nat, owner: Owner, u: UserId)
    requires j !in secrets
    requires forall k :: k in files ==> files[k].secret in secrets
    ensures ActiveFiles(secrets[j := owner], files, u) == ActiveFiles(secrets, files, u)
  {
    hide ActiveFiles;
    ActiveFilesAre(secrets, files, u);
    ActiveFilesAre(secrets[j := owner], files, u);
  }

  lemma FileInserted(secrets: map<nat, Owner>, files: map<nat, FileRow>, k: nat, row: FileRow, u: UserId)
    requires k !in files && row.secret in secrets
    ensures
      Total(ActiveFiles(secrets, files[k := row], u)).bytes
      == Total(ActiveFiles(secrets, files, u)).bytes + if secrets[row.secret] == Owned(u) then row.size else 0
  {
    hide Total, ActiveFiles;
    var before, after := ActiveFiles(secrets, files, u), ActiveFiles(secrets, files[k := row], u);
    ActiveFilesAre(secrets, files, u);
    ActiveFilesAre(secrets, files[k := row], u);
    if secrets[row.secret] == Owned(u) {
      assert after == before[k := Amount(0, row.size)];
      TotalPut(before, k, Amount(0, row.size));
    } else {
      assert after == before;
    }
  }

  lemma SecretRemoved(secrets: map<nat, Owner>, id: nat, u: UserId)
    requires id in secrets
    ensures |OwnedSecrets(secrets, u)| == |OwnedSecrets(secrets - {id}, u)| + if secrets[id] == Owned(u) then 1 else 0
  {
    var before, after := OwnedSecrets(secrets, u), OwnedSecrets(secrets - {id}, u);
    if secrets[id] == Owned(u) {
      assert before == after + {id};
    } else {
      assert before == after;
    }
  }

  /** The bytes of the files that a secret takes with it. */
  ghost function Moved(files: map<nat, FileRow>, id: nat, owner: Owner, u: UserId): map<nat, Amount> {
    Tabulate(if owner == Owned(u) then FilesOf(files, id) else {}, FileSize(files))
  }

  lemma MovedAre(files: map<nat, FileRow>, id: nat, owner: Owner, u: UserId)
    ensures
      var m := Moved(files, id, owner, u);
      && (forall k :: k in m <==> k in files && files[k].secret == id && owner == Owned(u))
      && (forall k :: k in m ==> m[k] == Amount(0, files[k].size))
  {
    hide Tabulate;
    Tabulated(if owner == Owned(u) then FilesOf(files, id) else {}, FileSize(files));
  }

  lemma FilesMoved(secrets: map<nat, Owner>, files: map<nat, FileRow>, outbox: map<nat, OutboxRow>, id: nat, u: UserId)
    requires id in secrets
    requires forall k :: k in outbox ==> k !in files
    ensures
      var moved := Total(Moved(files, id, secrets[id], u));
      && Total(ActiveFiles(secrets, files, u))
         == Total(ActiveFiles(secrets - {id}, Remaining(files, id), u)).Plus(moved)
      && Total(QueuedFiles(Enqueued(files, id, secrets[id]) + outbox, u)) == Total(QueuedFiles(outbox, u)).Plus(moved)
      && Zero().Leq(moved)
  {
    hide Total, ActiveFiles, QueuedFiles, Moved, Enqueued, Remaining;
    var moved := Moved(files, id, secrets[id], u);
    MovedNonnegative(files, id, secrets[id], u);
    ActiveSplits(secrets, files, id, u);
    TotalSplit(ActiveFiles(secrets, files, u), ActiveFiles(secrets - {id}, Remaining(files, id), u), moved);
    QueuedSplits(files, outbox, id, secrets[id], u);
    TotalSplit(QueuedFiles(Enqueued(files, id, secrets[id]) + outbox, u), QueuedFiles(outbox, u), moved);
  }

  lemma MovedNonnegative(files: map<nat, FileRow>, id: nat, owner: Owner, u: UserId)
    ensures Zero().Leq(Total(Moved(files, id, owner, u)))
  {
    hide Total, Moved;
    MovedAre(files, id, owner, u);
    TotalNonnegative(Moved(files, id, owner, u));
  }

  lemma ActiveSplits(secrets: map<nat, Owner>, files: map<nat, FileRow>, id: nat, u: UserId)
    requires id in secrets
    ensures
      Splits(ActiveFiles(secrets, files, u), ActiveFiles(secrets - {id}, Remaining(files, id), u),
             Moved(files, id, secrets[id], u))
  {
    hide ActiveFiles, Moved;
    ActiveFilesAre(secrets, files, u);
    ActiveFilesAre(secrets - {id}, Remaining(files, id), u);
    MovedAre(files, id, secrets[id], u);
  }

  lemma QueuedSplits(files: map<nat, FileRow>, outbox: map<nat, OutboxRow>, id: nat, owner: Owner, u: UserId)
    requires forall k :: k in outbox ==> k !in files
    ensures
      Splits(QueuedFiles(Enqueued(files, id, owner) + outbox, u), QueuedFiles(outbox, u), Moved(files, id, owner, u))
  {
    hide QueuedFiles, Moved, Enqueued;
    QueuedFilesAre(Enqueued(files, id, owner) + outbox, u);
    QueuedFilesAre(outbox, u);
    MovedAre(files, id, owner, u);
  }

  lemma Restaged(outbox: map<nat, OutboxRow>, k: nat, stage: Stage, u: UserId)
    requires k in outbox && !outbox[k].stage.Processed?
    ensures
      Total(QueuedFiles(outbox, u)).bytes
      == Total(QueuedFiles(outbox[k := outbox[k].(stage := stage)], u)).bytes
         + if stage.Processed? && outbox[k].owner == Owned(u) then outbox[k].billed else 0
  {
    hide Total, QueuedFiles;
    var before, after := QueuedFiles(outbox, u), QueuedFiles(outbox[k := outbox[k].(stage := stage)], u);
    QueuedFilesAre(outbox, u);
    QueuedFilesAre(outbox[k := outbox[k].(stage := stage)], u);
    if outbox[k].owner == Owned(u) && stage.Processed? {
      assert after == before - {k};
      TotalTake(before, k);
    } else {
      assert after == before;
    }
  }

  lemma DisownedSecrets(secrets: map<nat, Owner>, gone: UserId, u: UserId)
    ensures OwnedSecrets(WithoutOwner(secrets, gone), u) == (if u == gone then {} else OwnedSecrets(secrets, u))
  {
    hide WithoutOwner;
  }

  lemma DisownedFiles(secrets: map<nat, Owner>, files: map<nat, FileRow>, gone: UserId, u: UserId)
    ensures
      if u == gone then ActiveFiles(WithoutOwner(secrets, gone), files, u).Keys == {}
      else ActiveFiles(WithoutOwner(secrets, gone), files, u) == ActiveFiles(secrets, files, u)
  {
    hide ActiveFiles, WithoutOwner;
    ActiveFilesAre(secrets, files, u);
    ActiveFilesAre(WithoutOwner(secrets, gone), files, u);
  }

  lemma DisownedQueue(outbox: map<nat, OutboxRow>, gone: UserId, u: UserId)
    ensures
      if u == gone then QueuedFiles(WithoutPayer(outbox, gone), u).Keys == {}
      else QueuedFiles(WithoutPayer(outbox, gone), u) == QueuedFiles(outbox, u)
  {
    hide QueuedFiles, WithoutPayer;
    QueuedFilesAre(outbox, u);
    QueuedFilesAre(WithoutPayer(outbox, gone), u);
  }

  lemma RowsNonnegative(secrets: map<nat, Owner>, files: map<nat, FileRow>, outbox: map<nat, OutboxRow>, u: UserId)
    ensures Zero().Leq(Total(ActiveFiles(secrets, files, u)))
    ensures Zero().Leq(Total(QueuedFiles(outbox, u)))
  {
    hide Total, ActiveFiles, QueuedFiles;
    ActiveFilesAre(secrets, files, u);
    QueuedFilesAre(outbox, u);
    TotalNonnegative(ActiveFiles(secrets, files, u));
    TotalNonnegative(QueuedFiles(outbox, u));
  }
}
