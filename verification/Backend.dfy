/** The backend as a state machine: request handlers, reconcilers and cleanup workers interleave on Redis, the
    tables of the database and the object store. Each script and each transaction is one step; a handler may fail
    or stop between any two of its steps. */
module Backend {
  import opened Amounts
  import opened QuotaScripts

  datatype Owner = Nobody | Owned(user: UserId)

  datatype Kind = TextCreate | FileCreate | FileUpdate(secret: nat) {
    predicate Creates() { !FileUpdate? }
    predicate HasFile() { !TextCreate? }
  }

  /** Where a handler stands: reservations granted, pending row inserted, object uploaded, transaction committed. */
  datatype Phase = Begun | Granted | Funded | Staged | Stored | Landed | Failed | Dead

  datatype Job = Job(kind: Kind, user: UserId, size: nat, phase: Phase) {
    predicate Early() { phase.Begun? || phase.Granted? || phase.Funded? }
    predicate Uploading() { phase.Funded? || phase.Staged? || phase.Stored? }
    predicate Live() { phase.Begun? || phase.Granted? || Uploading() }

    /** What one of the request's reservations asks for. */
    function Delta(d: Dim): Amount {
      match d
      case Secrets => Amount(1, 0)
      case Bytes => Amount(0, size)
    }

    /** Whether the handler holds the reservation for a dimension while it is in its current phase. */
    predicate Reserved(d: Dim) {
      match d
      case Secrets => kind.Creates() && (phase.Granted? || Uploading())
      case Bytes => kind.HasFile() && Uploading()
    }
  }

  /** A file version row; its object key stands for the request that uploaded it. */
  datatype FileRow = FileRow(secret: nat, size: nat)

  /** Queued and Erased rows have no processed_at; Erased records that the storage delete has succeeded. */
  datatype Stage = Queued | Erased | Processed
  datatype OutboxRow = OutboxRow(owner: Owner, billed: nat, stage: Stage)

  /** A usage read: secrets, then active bytes, then queued bytes, each its own statement. `saw` is what had landed
      at the read, `miss` is what landed after the read and has lost its reservation since. */
  datatype Reader = Reader(user: UserId, progress: nat, snap: Amount, sawSecrets: set<nat>, sawFiles: set<nat>,
                           miss: Amount)

  /** Object keys, pending rows and secrets created by a request are named by the number of that request. The last four
      fields only record history: landed transactions; reservations that the latest reconciliation of their user
      counted although its read had seen their transaction, so that their user's counter holds them twice; the amount
      by which a counter may under-report; and the amount by which a limit may be exceeded. */
  datatype State = State(
    redis: Redis,
    secrets: map<nat, Owner>,
    files: map<nat, FileRow>,
    outbox: map<nat, OutboxRow>,
    pending: map<nat, UserId>,
    objects: set<nat>,
    jobs: map<nat, Job>,
    gone: set<UserId>,
    readers: map<nat, Reader>,
    sweeping: map<nat, bool>,
    limits: map<UserId, Amount>,
    landed: set<nat>,
    doubled: set<ReservationId>,
    debt: map<UserId, Amount>,
    excess: map<UserId, Amount>)

  datatype Step =
    | Arrive(j: nat, kind: Kind, user: UserId, size: nat)
    | StartRead(r: nat, user: UserId)
    | Read(r: nat)
    | TryReserve(r: nat, j: nat, expiresAt: int)
    | DoReconcile(r: nat)
    | StageUpload(j: nat)
    | StoreObject(j: nat)
    | Land(j: nat, reported: bool)
    | Fail(j: nat)
    | Crash(j: nat)
    | DeleteOwnObject(j: nat)
    | DoRelease(rid: ReservationId)
    | DoCommit(rid: ReservationId)
    | DeleteSecret(s: nat)
    | EraseQueued(k: nat)
    | MarkProcessed(k: nat)
    | Fetch(j: nat)
    | EraseFetched(j: nat)
    | DropPending(j: nat)
    | DeleteUser(user: UserId)

  // ---------- Durable usage ----------

  function OwnedSecrets(secrets: map<nat, Owner>, u: UserId): set<nat> {
    set k | k in secrets && secrets[k] == Owned(u)
  }

  function FileSize(files: map<nat, FileRow>): nat -> Amount {
    (k: nat) => if k in files then Amount(0, files[k].size) else Zero()
  }

  function ActiveKeys(secrets: map<nat, Owner>, files: map<nat, FileRow>, u: UserId): set<nat> {
    set k | k in files && files[k].secret in secrets && secrets[files[k].secret] == Owned(u)
  }

  ghost function ActiveFiles(secrets: map<nat, Owner>, files: map<nat, FileRow>, u: UserId): map<nat, Amount> {
    Tabulate(ActiveKeys(secrets, files, u), FileSize(files))
  }

  lemma ActiveFilesAre(secrets: map<nat, Owner>, files: map<nat, FileRow>, u: UserId)
    ensures
      var m := ActiveFiles(secrets, files, u);
      && (forall k :: k in m <==> k in files && files[k].secret in secrets && secrets[files[k].secret] == Owned(u))
      && (forall k :: k in m ==> m[k] == Amount(0, files[k].size))
  {
    hide Tabulate;
    Tabulated(ActiveKeys(secrets, files, u), FileSize(files));
  }

  function Bill(outbox: map<nat, OutboxRow>): nat -> Amount {
    (k: nat) => if k in outbox then Amount(0, outbox[k].billed) else Zero()
  }

  function QueuedKeys(outbox: map<nat, OutboxRow>, u: UserId): set<nat> {
    set k | k in outbox && outbox[k].owner == Owned(u) && !outbox[k].stage.Processed?
  }

  ghost function QueuedFiles(outbox: map<nat, OutboxRow>, u: UserId): map<nat, Amount> {
    Tabulate(QueuedKeys(outbox, u), Bill(outbox))
  }

  lemma QueuedFilesAre(outbox: map<nat, OutboxRow>, u: UserId)
    ensures
      var m := QueuedFiles(outbox, u);
      && (forall k :: k in m <==> k in outbox && outbox[k].owner == Owned(u) && !outbox[k].stage.Processed?)
      && (forall k :: k in m ==> m[k] == Amount(0, outbox[k].billed))
  {
    hide Tabulate;
    Tabulated(QueuedKeys(outbox, u), Bill(outbox));
  }

  /** What a user's counter holds twice. */
  ghost function Twice(holds: map<ReservationId, Hold>, doubled: set<ReservationId>,
                       u: UserId): map<ReservationId, Amount>
  {
    Deltas(holds, set rid | rid in doubled && rid in holds && holds[rid].user == u)
  }

  lemma TwiceAre(holds: map<ReservationId, Hold>, doubled: set<ReservationId>, u: UserId)
    ensures
      var m := Twice(holds, doubled, u);
      && (forall rid :: rid in m <==> rid in doubled && rid in holds && holds[rid].user == u)
      && (forall rid :: rid in m ==> m[rid] == holds[rid].delta)
  {
    DeltasAre(holds, set rid | rid in doubled && rid in holds && holds[rid].user == u);
  }

  /** What a user's secrets, file versions and unprocessed deletions amount to. */
  ghost function Durable(secrets: map<nat, Owner>, files: map<nat, FileRow>, outbox: map<nat, OutboxRow>,
                         u: UserId): Amount
  {
    Amount(|OwnedSecrets(secrets, u)|,
           Total(ActiveFiles(secrets, files, u)).bytes + Total(QueuedFiles(outbox, u)).bytes)
  }

  /** Reservations of a user whose transaction has not committed. */
  ghost function Unlanded(holds: map<ReservationId, Hold>, landed: set<nat>, u: UserId): map<ReservationId, Amount> {
    Deltas(holds, set rid | rid in holds && holds[rid].user == u && rid.request !in landed)
  }

  lemma UnlandedAre(holds: map<ReservationId, Hold>, landed: set<nat>, u: UserId)
    ensures
      var m := Unlanded(holds, landed, u);
      && (forall rid :: rid in m <==> rid in holds && holds[rid].user == u && rid.request !in landed)
      && (forall rid :: rid in m ==> m[rid] == holds[rid].delta)
  {
    DeltasAre(holds, set rid | rid in holds && holds[rid].user == u && rid.request !in landed);
  }

  /** Reservations of a user whose transaction has committed, other than those already seen. */
  ghost function Backed(holds: map<ReservationId, Hold>, landed: set<nat>, seen: set<nat>,
                        u: UserId): map<ReservationId, Amount>
  {
    Deltas(holds, set rid | rid in holds && holds[rid].user == u && rid.request in landed && rid.request !in seen)
  }

  lemma BackedAre(holds: map<ReservationId, Hold>, landed: set<nat>, seen: set<nat>, u: UserId)
    ensures
      var m := Backed(holds, landed, seen, u);
      && (forall rid :: rid in m <==>
            rid in holds && holds[rid].user == u && rid.request in landed && rid.request !in seen)
      && (forall rid :: rid in m ==> m[rid] == holds[rid].delta)
  {
    DeltasAre(holds, set rid | rid in holds && holds[rid].user == u && rid.request in landed && rid.request !in seen);
  }

  /** Durable usage plus the reservations that have yet to become durable. */
  ghost function Load(s: State, u: UserId): Amount {
    Durable(s.secrets, s.files, s.outbox, u).Plus(Total(Unlanded(s.redis.holds, s.landed, u)))
  }

  // ---------- Small pieces of the steps ----------

  function DefaultLimit(): Amount {
    Amount(100, 1_073_741_824)
  }

  function Limit(limits: map<UserId, Amount>, u: UserId): Amount {
    if u in limits then limits[u] else DefaultLimit()
  }

  function At(m: map<UserId, Amount>, u: UserId): Amount {
    if u in m then m[u] else Zero()
  }

  /** The reservation a handler asks for next, if it is still collecting reservations. */
  function NextCharge(job: Job): set<Dim> {
    match (job.kind, job.phase)
    case (TextCreate, Begun) => {Secrets}
    case (FileCreate, Begun) => {Secrets}
    case (FileCreate, Granted) => {Bytes}
    case (FileUpdate(_), Begun) => {Bytes}
    case _ => {}
  }

  function Charge(job: Job): Dim {
    if job.kind.FileUpdate? || job.phase.Granted? then Bytes else Secrets
  }

  function Payer(s: State, j: nat): Owner
    requires j in s.jobs
  {
    match s.jobs[j].kind
    case FileUpdate(secret) => if secret in s.secrets then s.secrets[secret] else Nobody
    case _ => Owned(s.jobs[j].user)
  }

  /** What a transaction adds to its payer's durable usage without a reservation of that payer behind it. */
  function Stray(s: State, j: nat): Amount
    requires j in s.jobs
  {
    var job := s.jobs[j];
    var mine := Payer(s, j) == Owned(job.user);
    Amount(if job.kind.Creates() && ReservationId(j, Secrets) !in s.redis.holds then 1 else 0,
           if job.kind.HasFile() && !(mine && ReservationId(j, Bytes) in s.redis.holds) then job.size else 0)
  }

  function Advance(s: State, j: nat, phase: Phase): State
    requires j in s.jobs
  {
    s.(jobs := s.jobs[j := s.jobs[j].(phase := phase)])
  }

  function Settled(rd: Reader, j: nat, u: UserId, delta: Amount): Reader {
    if rd.user != u then rd
    else rd.(miss := rd.miss.Plus(Amount(if rd.progress >= 1 && j !in rd.sawSecrets then delta.secrets else 0,
                                         if rd.progress >= 2 && j !in rd.sawFiles then delta.bytes else 0)))
  }

  function Strayed(rd: Reader, payer: Owner, stray: Amount): Reader {
    if payer != Owned(rd.user) then rd
    else rd.(miss := rd.miss.Plus(Amount(if rd.progress >= 1 then stray.secrets else 0,
                                         if rd.progress >= 2 then stray.bytes else 0)))
  }

  function LandedSecrets(secrets: map<nat, Owner>, j: nat, job: Job): map<nat, Owner> {
    if job.kind.Creates() then secrets[j := Owned(job.user)] else secrets
  }

  function LandedFiles(files: map<nat, FileRow>, j: nat, job: Job): map<nat, FileRow> {
    match job.kind
    case TextCreate => files
    case FileCreate => files[j := FileRow(j, job.size)]
    case FileUpdate(secret) => files[j := FileRow(secret, job.size)]
  }

  function SettledReader(readers: map<nat, Reader>, j: nat, u: UserId, delta: Amount): nat -> Reader {
    (r: nat) => Settled(ReaderAt(readers, r), j, u, delta)
  }

  ghost function SettleAllReaders(readers: map<nat, Reader>, j: nat, u: UserId, delta: Amount): (m: map<nat, Reader>)
    ensures m.Keys == readers.Keys
    ensures forall r :: r in m ==> m[r] == Settled(readers[r], j, u, delta)
  {
    Tabulated(readers.Keys, SettledReader(readers, j, u, delta));
    Tabulate(readers.Keys, SettledReader(readers, j, u, delta))
  }

  function StrayedReader(readers: map<nat, Reader>, payer: Owner, stray: Amount): nat -> Reader {
    (r: nat) => Strayed(ReaderAt(readers, r), payer, stray)
  }

  ghost function StrayAll(readers: map<nat, Reader>, payer: Owner, stray: Amount): (m: map<nat, Reader>)
    ensures m.Keys == readers.Keys
    ensures forall r :: r in m ==> m[r] == Strayed(readers[r], payer, stray)
  {
    Tabulated(readers.Keys, StrayedReader(readers, payer, stray));
    Tabulate(readers.Keys, StrayedReader(readers, payer, stray))
  }

  function ReaderAt(readers: map<nat, Reader>, r: nat): Reader {
    if r in readers then readers[r] else Reader(0, 0, Zero(), {}, {}, Zero())
  }

  /** The file rows that a deleted secret leaves behind. */
  function Remaining(files: map<nat, FileRow>, id: nat): map<nat, FileRow> {
    files - FilesOf(files, id)
  }

  /** The outbox rows that the deletion trigger inserts for a secret. */
  function QueuedRow(files: map<nat, FileRow>, owner: Owner): nat -> OutboxRow {
    (k: nat) => OutboxRow(owner, if k in files then files[k].size else 0, Queued)
  }

  function FilesOf(files: map<nat, FileRow>, id: nat): set<nat> {
    set k | k in files && files[k].secret == id
  }

  ghost function Enqueued(files: map<nat, FileRow>, id: nat, owner: Owner): (m: map<nat, OutboxRow>)
    ensures forall k :: k in m <==> k in files && files[k].secret == id
    ensures forall k :: k in m ==> m[k] == OutboxRow(owner, files[k].size, Queued)
  {
    Tabulated(FilesOf(files, id), QueuedRow(files, owner));
    Tabulate(FilesOf(files, id), QueuedRow(files, owner))
  }

  function DisownedBy(secrets: map<nat, Owner>, u: UserId): nat -> Owner {
    (k: nat) => if k !in secrets || secrets[k] == Owned(u) then Nobody else secrets[k]
  }

  ghost function WithoutOwner(secrets: map<nat, Owner>, u: UserId): (m: map<nat, Owner>)
    ensures m.Keys == secrets.Keys
    ensures forall k :: k in m ==> m[k] == if secrets[k] == Owned(u) then Nobody else secrets[k]
  {
    Tabulated(secrets.Keys, DisownedBy(secrets, u));
    Tabulate(secrets.Keys, DisownedBy(secrets, u))
  }

  function UnpaidBy(outbox: map<nat, OutboxRow>, u: UserId): nat -> OutboxRow {
    (k: nat) => Unpaid(if k in outbox then outbox[k] else OutboxRow(Nobody, 0, Queued), u)
  }

  ghost function WithoutPayer(outbox: map<nat, OutboxRow>, u: UserId): (m: map<nat, OutboxRow>)
    ensures m.Keys == outbox.Keys
    ensures
      forall k :: k in m ==> m[k] == if outbox[k].owner == Owned(u) then outbox[k].(owner := Nobody) else outbox[k]
  {
    Tabulated(outbox.Keys, UnpaidBy(outbox, u));
    Tabulate(outbox.Keys, UnpaidBy(outbox, u))
  }

  function Unpaid(row: OutboxRow, u: UserId): OutboxRow {
    if row.owner == Owned(u) then row.(owner := Nobody) else row
  }

  function PendingOf(pending: map<nat, UserId>, u: UserId): set<nat> {
    set j | j in pending && pending[j] == u
  }

  // ---------- The steps ----------

  function DoArrive(s: State, j: nat, kind: Kind, user: UserId, size: nat): State {
    s.(jobs := s.jobs[j := Job(kind, user, size, Begun)])
  }

  function DoStartRead(s: State, r: nat, user: UserId): State {
    s.(readers := s.readers[r := Reader(user, 0, Zero(), {}, {}, Zero())])
  }

  /** The next statement of a usage read. */
  ghost function ReadOn(s: State, rd: Reader): Reader {
    if rd.progress == 0 then
      rd.(progress := 1, sawSecrets := s.landed, miss := Zero(),
          snap := Amount(|OwnedSecrets(s.secrets, rd.user)|, 0))
    else if rd.progress == 1 then
      rd.(progress := 2, sawFiles := s.landed, miss := Amount(rd.miss.secrets, 0),
          snap := Amount(rd.snap.secrets, Total(ActiveFiles(s.secrets, s.files, rd.user)).bytes))
    else
      rd.(progress := 3, snap := rd.snap.Plus(Amount(0, Total(QueuedFiles(s.outbox, rd.user)).bytes)))
  }

  ghost function DoRead(s: State, r: nat): State
    requires r in s.readers
  {
    s.(readers := s.readers[r := ReadOn(s, s.readers[r])])
  }

  /** The outcome of the reserve script for a handler's next reservation. */
  function Ask(s: State, r: nat, j: nat, expiresAt: int): (Redis, Reply)
    requires r in s.readers && j in s.jobs
  {
    var job := s.jobs[j];
    Reserve(s.redis, job.user, ReservationId(j, Charge(job)), job.Delta(Charge(job)), Limit(s.limits, job.user),
            expiresAt, s.readers[r].snap)
  }

  function DoReserve(s: State, r: nat, j: nat, expiresAt: int): State
    requires r in s.readers && j in s.jobs
  {
    var user, asked := s.jobs[j].user, Ask(s, r, j, expiresAt);
    var debt := if user in s.redis.usage then s.debt else s.debt[user := s.readers[r].miss];
    var admitted := asked.1.Accepted?;
    Advance(s, j, if !admitted then Failed else if Charge(s.jobs[j]).Secrets? then Granted else Funded).(
      redis := asked.0,
      readers := s.readers - {r},
      debt := debt,
      excess := if admitted then s.excess[user := At(s.excess, user).Join(At(debt, user))] else s.excess)
  }

  /** Which reservations are counted twice once a reader has reconciled its user. */
  function Recounted(holds: map<ReservationId, Hold>, doubled: set<ReservationId>, rd: Reader): set<ReservationId> {
    set rid | rid in holds && if holds[rid].user == rd.user then rid.request in rd.sawSecrets else rid in doubled
  }

  ghost function RunReconcile(s: State, r: nat): State
    requires r in s.readers
  {
    var rd := s.readers[r];
    s.(redis := Reconcile(s.redis, rd.user, rd.snap),
       readers := s.readers - {r},
       doubled := Recounted(s.redis.holds, s.doubled, rd),
       debt := s.debt[rd.user := rd.miss])
  }

  function DoStage(s: State, j: nat): State
    requires j in s.jobs
  {
    Advance(s, j, Staged).(pending := s.pending[j := s.jobs[j].user])
  }

  function DoStore(s: State, j: nat): State
    requires j in s.jobs
  {
    Advance(s, j, Stored).(objects := s.objects + {j})
  }

  ghost function DoLand(s: State, j: nat, reported: bool): State
    requires j in s.jobs
  {
    var job, payer, stray := s.jobs[j], Payer(s, j), Stray(s, j);
    Advance(s, j, if reported then Landed else Failed).(
      secrets := LandedSecrets(s.secrets, j, job),
      files := LandedFiles(s.files, j, job),
      pending := s.pending - {j},
      readers := StrayAll(s.readers, payer, stray),
      landed := s.landed + {j},
      debt := if payer.Owned? then s.debt[payer.user := At(s.debt, payer.user).Plus(stray)] else s.debt,
      excess := if payer.Owned? then s.excess[payer.user := At(s.excess, payer.user).Plus(stray)] else s.excess)
  }

  /** Release by compensation, by the pending sweep or by the reaper: all three run the same script. Only the release of
      a landed reservation that is not counted twice leaves durable usage uncounted. */
  ghost function Unreserve(s: State, rid: ReservationId): State
    requires rid in s.redis.holds
  {
    var hold := s.redis.holds[rid];
    var backed := rid.request in s.landed;
    s.(redis := Release(s.redis, hold.user, rid),
       readers := if backed then SettleAllReaders(s.readers, rid.request, hold.user, hold.delta) else s.readers,
       doubled := s.doubled - {rid},
       debt := if backed && rid !in s.doubled then s.debt[hold.user := At(s.debt, hold.user).Plus(hold.delta)]
               else s.debt)
  }

  ghost function SettleHold(s: State, rid: ReservationId): State
    requires rid in s.redis.holds
  {
    var hold := s.redis.holds[rid];
    s.(redis := Commit(s.redis, rid),
       doubled := s.doubled - {rid},
       readers := SettleAllReaders(s.readers, rid.request, hold.user, hold.delta))
  }

  /** Deleting a secret cascades to its versions; the trigger queues their objects for deletion first. */
  ghost function Cascade(s: State, id: nat): State
    requires id in s.secrets
  {
    s.(secrets := s.secrets - {id},
       files := Remaining(s.files, id),
       outbox := Enqueued(s.files, id, s.secrets[id]) + s.outbox)
  }

  function Restage(s: State, k: nat, stage: Stage): State
    requires k in s.outbox
  {
    s.(outbox := s.outbox[k := s.outbox[k].(stage := stage)])
  }

  /** Deleting a user disowns secrets and queued objects and drops the pending rows. */
  ghost function Disown(s: State, u: UserId): State {
    var orphans := PendingOf(s.pending, u);
    s.(gone := s.gone + {u},
       secrets := WithoutOwner(s.secrets, u),
       outbox := WithoutPayer(s.outbox, u),
       pending := s.pending - orphans)
  }

  predicate CanLand(s: State, j: nat) {
    && j in s.jobs
    && s.jobs[j].user !in s.gone
    && match s.jobs[j].kind
       case TextCreate => s.jobs[j].phase.Granted?
       case FileCreate => s.jobs[j].phase.Stored?
       case FileUpdate(secret) => s.jobs[j].phase.Stored? && secret in s.secrets
  }

  predicate Enabled(s: State, step: Step) {
    match step
    case Arrive(j, _, _, _) => j !in s.jobs
    case StartRead(r, _) => r !in s.readers
    case Read(r) => r in s.readers && s.readers[r].progress < 3
    case TryReserve(r, j, _) =>
      && r in s.readers && s.readers[r].progress == 3
      && j in s.jobs && s.readers[r].user == s.jobs[j].user && NextCharge(s.jobs[j]) != {}
    case DoReconcile(r) => r in s.readers && s.readers[r].progress == 3
    case StageUpload(j) => j in s.jobs && s.jobs[j].phase.Funded? && s.jobs[j].user !in s.gone
    case StoreObject(j) => j in s.jobs && s.jobs[j].phase.Staged?
    case Land(j, _) => CanLand(s, j)
    case Fail(j) => j in s.jobs && s.jobs[j].Live()
    case Crash(j) => j in s.jobs
    case DeleteOwnObject(j) => j in s.jobs && s.jobs[j].phase.Failed?
    case DoRelease(rid) => rid in s.redis.holds
    case DoCommit(rid) => rid in s.redis.holds && rid.request in s.jobs && s.jobs[rid.request].phase.Landed?
    case DeleteSecret(id) => id in s.secrets
    case EraseQueued(k) => k in s.outbox && !s.outbox[k].stage.Processed?
    case MarkProcessed(k) => k in s.outbox && s.outbox[k].stage.Erased?
    case Fetch(j) => j in s.pending && j in s.jobs
    case EraseFetched(j) => j in s.sweeping
    case DropPending(j) => j in s.sweeping && s.sweeping[j]
    case DeleteUser(u) => u !in s.gone
  }

  ghost function Apply(s: State, step: Step): State
    requires Enabled(s, step)
  {
    match step
    case Arrive(j, kind, user, size) => DoArrive(s, j, kind, user, size)
    case StartRead(r, user) => DoStartRead(s, r, user)
    case Read(r) => DoRead(s, r)
    case TryReserve(r, j, expiresAt) => DoReserve(s, r, j, expiresAt)
    case DoReconcile(r) => RunReconcile(s, r)
    case StageUpload(j) => DoStage(s, j)
    case StoreObject(j) => DoStore(s, j)
    case Land(j, reported) => DoLand(s, j, reported)
    case Fail(j) => Advance(s, j, Failed)
    case Crash(j) => Advance(s, j, Dead)
    case DeleteOwnObject(j) => s.(objects := s.objects - {j})
    case DoRelease(rid) => Unreserve(s, rid)
    case DoCommit(rid) => SettleHold(s, rid)
    case DeleteSecret(id) => Cascade(s, id)
    case EraseQueued(k) => Restage(s, k, Erased).(objects := s.objects - {k})
    case MarkProcessed(k) => Restage(s, k, Processed)
    case Fetch(j) => s.(sweeping := s.sweeping[j := j in s.sweeping && s.sweeping[j]])
    case EraseFetched(j) => s.(objects := s.objects - {j}, sweeping := s.sweeping[j := true])
    case DropPending(j) => s.(pending := s.pending - {j})
    case DeleteUser(u) => Disown(s, u)
  }

  /** A run: every step is enabled when it is taken. */
  ghost predicate Legal(s: State, steps: seq<Step>)
    decreases |steps|
  {
    steps != [] ==> Enabled(s, steps[0]) && Legal(Apply(s, steps[0]), steps[1..])
  }

  ghost function Run(s: State, steps: seq<Step>): State
    requires Legal(s, steps)
    decreases |steps|
  {
    if steps == [] then s else Run(Apply(s, steps[0]), steps[1..])
  }

  function Empty(limits: map<UserId, Amount>): State {
    State(Redis(map[], map[], map[]), map[], map[], map[], map[], {}, map[], {}, map[], map[], limits, {}, {},
          map[], map[])
  }

  // ---------- What every step keeps about the shape of the state ----------

  /** Every reservation belongs to a request that has asked for it, and holds what that request asks for. */
  predicate Fits(jobs: map<nat, Job>, rid: ReservationId, hold: Hold) {
    && rid.request in jobs
    && var job := jobs[rid.request];
       && hold.user == job.user && hold.delta == job.Delta(rid.charge) && !job.phase.Begun?
       && match rid.charge
          case Secrets => job.kind.Creates()
          case Bytes => job.kind.HasFile() && !job.phase.Granted?
  }

  ghost predicate HoldsFit(redis: Redis, jobs: map<nat, Job>) {
    && redis.WellFormed()
    && forall rid :: rid in redis.holds ==> Fits(jobs, rid, redis.holds[rid])
  }

  ghost predicate PhasesFit(jobs: map<nat, Job>, landed: set<nat>) {
    && (forall j :: j in landed ==> j in jobs && !jobs[j].Live())
    && (forall j :: j in jobs && jobs[j].phase.Landed? ==> j in landed)
    && (forall j :: j in jobs && jobs[j].phase.Granted? ==> jobs[j].kind.Creates())
    && (forall j :: j in jobs && jobs[j].Uploading() ==> jobs[j].kind.HasFile())
  }

  /** Rows name landed requests, file rows have their secret, and a queued object has no file row any more. */
  ghost predicate RowsFit(secrets: map<nat, Owner>, files: map<nat, FileRow>, outbox: map<nat, OutboxRow>,
                          jobs: map<nat, Job>, landed: set<nat>) {
    && landed <= jobs.Keys
    && (forall id :: id in secrets ==> id in landed)
    && (forall k :: k in files ==> k in landed && files[k].secret in secrets && files[k].size == jobs[k].size)
    && (forall k :: k in outbox ==> k in landed && k !in files && outbox[k].billed == jobs[k].size)
  }

  ghost predicate PendingFits(pending: map<nat, UserId>, jobs: map<nat, Job>, landed: set<nat>) {
    forall j :: j in pending ==> j in jobs && j !in landed && !jobs[j].Early()
  }

  predicate ReaderFits(rd: Reader, landed: set<nat>) {
    && rd.progress <= 3 && rd.sawSecrets <= landed && rd.sawFiles <= landed
    && (rd.progress >= 2 ==> rd.sawSecrets <= rd.sawFiles)
    && (rd.progress == 0 ==> rd.miss.secrets == 0)
    && (rd.progress <= 1 ==> rd.miss.bytes == 0)
  }

  ghost predicate ReadersFit(readers: map<nat, Reader>, landed: set<nat>) {
    forall r :: r in readers ==> ReaderFits(readers[r], landed)
  }

  /** A reservation that is counted twice exists, and its transaction has committed. */
  ghost predicate DoublesFit(doubled: set<ReservationId>, holds: map<ReservationId, Hold>, landed: set<nat>) {
    forall rid :: rid in doubled ==> rid in holds && rid.request in landed
  }

  /** Requests, reservations and rows refer to each other consistently. */
  ghost predicate Shape(s: State) {
    && HoldsFit(s.redis, s.jobs)
    && PhasesFit(s.jobs, s.landed)
    && RowsFit(s.secrets, s.files, s.outbox, s.jobs, s.landed)
    && PendingFits(s.pending, s.jobs, s.landed)
    && ReadersFit(s.readers, s.landed)
    && DoublesFit(s.doubled, s.redis.holds, s.landed)
  }
}
