/** Runs from the empty backend to a state in which a user with a limit of one secret owns two: two requests each create
    a secret, and the counter loses the first one in between. It is lost to a reconciliation whose usage read and script
    are apart, or to the reaper after a commit that did not come through. */
module QuotaWitness {
  import opened Amounts
  import opened QuotaScripts
  import opened Backend
  import opened UsageSums
  import opened QuotaRuns

  function First(): ReservationId { ReservationId(0, Secrets) }

  function Second(): ReservationId { ReservationId(1, Secrets) }

  function Text(phase: Phase): Job { Job(TextCreate, 0, 0, phase) }

  /** A complete usage read of user 0. */
  function Seen(count: int, saw: set<nat>, miss: int): Reader {
    Reader(0, 3, Amount(count, 0), saw, saw, Amount(miss, 0))
  }

  /** Redis with a counter for user 0 and at most one reservation. */
  function Keys(counter: int, held: map<ReservationId, Hold>): Redis {
    Redis(map[0 := Amount(counter, 0)], held,
          if First() in held then map[First() := 600] else if Second() in held then map[Second() := 600] else map[])
  }

  function Held(rid: ReservationId): map<ReservationId, Hold> {
    map[rid := Hold(0, Amount(1, 0), false)]
  }

  function Just(n: int): map<UserId, Amount> { map[0 := Amount(n, 0)] }

  /** A state without files whose one user may own one secret. */
  function At1(redis: Redis, secrets: map<nat, Owner>, jobs: map<nat, Job>, readers: map<nat, Reader>, landed: set<nat>,
               debt: map<UserId, Amount>, excess: map<UserId, Amount>): State {
    State(redis, secrets, map[], map[], map[], {}, jobs, {}, readers, map[], map[0 := Amount(1, 1)], landed, {}, debt,
          excess)
  }

  /** A user of the given secrets who has no files. */
  lemma SecretsOnly(secrets: map<nat, Owner>, owned: set<nat>)
    requires owned == secrets.Keys && forall k :: k in secrets ==> secrets[k] == Owned(0)
    ensures Durable(secrets, map[], map[], 0) == Amount(|owned|, 0)
  {
    hide Total, ActiveFiles, QueuedFiles;
    ActiveFilesAre(secrets, map[], 0);
    QueuedFilesAre(map[], 0);
    TotalEmpty(ActiveFiles(secrets, map[], 0));
    TotalEmpty(QueuedFiles(map[], 0));
    assert OwnedSecrets(secrets, 0) == owned;
  }

  lemma OneSecret()
    ensures Durable(map[0 := Owned(0)], map[], map[], 0) == Amount(1, 0)
  {
    hide Durable;
    SecretsOnly(map[0 := Owned(0)], {0});
  }

  lemma TwoSecrets()
    ensures Durable(map[0 := Owned(0), 1 := Owned(0)], map[], map[], 0) == Amount(2, 0)
  {
    hide Durable;
    SecretsOnly(map[0 := Owned(0), 1 := Owned(0)], {0, 1});
  }

  // The states of the run.

  function Asked(): State {
    At1(Redis(map[], map[], map[]), map[], map[0 := Text(Begun)], map[], {}, map[], map[])
  }

  function FirstHolds(): State {
    At1(Keys(1, Held(First())), map[], map[0 := Text(Granted)], map[], {}, Just(0), Just(0))
  }

  function FirstDurable(redis: Redis, miss: int): State {
    At1(redis, map[0 := Owned(0)], map[0 := Text(Landed)], map[1 := Seen(0, {}, miss)], {0}, Just(0), Just(0))
  }

  function FirstUncommitted(): State {
    At1(Keys(1, Held(First())), map[0 := Owned(0)], map[0 := Text(Landed)], map[], {0}, Just(0), Just(0))
  }

  function CounterLost(): State {
    At1(Keys(0, map[]), map[0 := Owned(0)], map[0 := Text(Landed)], map[], {0}, Just(1), Just(0))
  }

  function SecondAsks(): State {
    At1(Keys(0, map[]), map[0 := Owned(0)], map[0 := Text(Landed), 1 := Text(Begun)], map[], {0}, Just(1), Just(0))
  }

  function SecondHolds(): State {
    At1(Keys(1, Held(Second())), map[0 := Owned(0)], map[0 := Text(Landed), 1 := Text(Granted)], map[], {0}, Just(1),
        Just(1))
  }

  function BothDurable(): State {
    At1(Keys(1, Held(Second())), map[0 := Owned(0), 1 := Owned(0)], map[0 := Text(Landed), 1 := Text(Landed)], map[],
        {0, 1}, Just(1), Just(1))
  }

  // The steps between them.

  lemma FirstReserves()
    ensures
      var s := ReadBy(Asked(), 0, Seen(0, {}, 0));
      Enabled(s, TryReserve(0, 0, 600)) && DoReserve(s, 0, 0, 600) == FirstHolds()
  {
    hide DoReserve;
    GrantedReserve(ReadBy(Asked(), 0, Seen(0, {}, 0)), 0, 0, 600);
  }

  /** A reservation that is granted, field by field. */
  lemma GrantedReserve(s: State, r: nat, j: nat, at: int)
    requires Enabled(s, TryReserve(r, j, at))
    requires
      var job := s.jobs[j];
      s.redis.Counter(job.user, s.readers[r].snap).Plus(job.Delta(Charge(job))).Leq(Limit(s.limits, job.user))
    ensures
      var job, rid := s.jobs[j], ReservationId(j, Charge(s.jobs[j]));
      var debt := if job.user in s.redis.usage then s.debt else s.debt[job.user := s.readers[r].miss];
      var counter := s.redis.Counter(job.user, s.readers[r].snap).Plus(job.Delta(rid.charge));
      DoReserve(s, r, j, at) == Advance(s, j, if rid.charge.Secrets? then Granted else Funded).(
        redis := Redis(s.redis.usage[job.user := counter],
                       s.redis.holds[rid := Hold(job.user, job.Delta(rid.charge), false)],
                       s.redis.index[rid := at]),
        readers := s.readers - {r},
        debt := debt,
        excess := s.excess[job.user := At(s.excess, job.user).Join(At(debt, job.user))])
  {
    hide Limit, At, Charge;
    var job := s.jobs[j];
    AcceptedIffBothFit(s.redis, job.user, ReservationId(j, Charge(job)), job.Delta(Charge(job)),
                       Limit(s.limits, job.user), at, s.readers[r].snap);
  }

  lemma ReadersMissNothing(readers: map<nat, Reader>, payer: Owner)
    ensures StrayAll(readers, payer, Zero()) == readers
  {
    forall r | r in readers ensures Strayed(readers[r], payer, Zero()) == readers[r] {
    }
  }

  /** A transaction that is backed by reservations, field by field. */
  lemma BackedLanding(s: State, j: nat, reported: bool)
    requires CanLand(s, j) && Payer(s, j) == Owned(s.jobs[j].user) && Stray(s, j) == Zero()
    ensures
      var job := s.jobs[j];
      DoLand(s, j, reported) == Advance(s, j, if reported then Landed else Failed).(
        secrets := LandedSecrets(s.secrets, j, job),
        files := LandedFiles(s.files, j, job),
        pending := s.pending - {j},
        landed := s.landed + {j},
        debt := s.debt[job.user := At(s.debt, job.user)],
        excess := s.excess[job.user := At(s.excess, job.user)])
  {
    hide StrayAll, Payer, Stray, LandedSecrets, LandedFiles;
    ReadersMissNothing(s.readers, Payer(s, j));
  }

  lemma FirstLands()
    ensures
      var s := ReadBy(FirstHolds(), 1, Seen(0, {}, 0));
      CanLand(s, 0) && DoLand(s, 0, true) == FirstDurable(Keys(1, Held(First())), 0)
  {
    hide DoLand;
    BackedLanding(ReadBy(FirstHolds(), 1, Seen(0, {}, 0)), 0, true);
  }

  lemma FirstLandsAlone()
    ensures CanLand(FirstHolds(), 0) && DoLand(FirstHolds(), 0, true) == FirstUncommitted()
  {
    hide DoLand;
    BackedLanding(FirstHolds(), 0, true);
  }

  lemma FirstCommits()
    ensures
      var s := FirstDurable(Keys(1, Held(First())), 0);
      Enabled(s, DoCommit(First())) && SettleHold(s, First()) == FirstDurable(Keys(1, map[]), 1)
  {
  }

  lemma StaleReconcile()
    ensures
      var s := FirstDurable(Keys(1, map[]), 1);
      Enabled(s, DoReconcile(1)) && RunReconcile(s, 1) == CounterLost()
  {
    hide RunReconcile;
    IdleReconcile(FirstDurable(Keys(1, map[]), 1), 1);
  }

  /** A reconciliation while nothing is reserved, field by field. */
  lemma IdleReconcile(s: State, r: nat)
    requires r in s.readers && s.redis.holds.Keys == {} && s.redis.index.Keys == {}
    ensures
      var rd := s.readers[r];
      RunReconcile(s, r) == s.(
        redis := s.redis.(usage := s.redis.usage[rd.user := rd.snap]),
        readers := s.readers - {r}, doubled := {}, debt := s.debt[rd.user := rd.miss])
  {
    hide Owed, Recounted;
    NothingOwed(s.redis, s.readers[r].user);
    NothingRecounted(s.redis.holds, s.doubled, s.readers[r]);
  }

  lemma NothingRecounted(holds: map<ReservationId, Hold>, doubled: set<ReservationId>, rd: Reader)
    requires holds.Keys == {}
    ensures Recounted(holds, doubled, rd) == {}
  {
  }

  lemma NothingOwed(redis: Redis, u: UserId)
    requires redis.index.Keys == {}
    ensures Owed(redis, u, redis.index.Keys) == Zero()
  {
    hide Total, Deltas;
    DeltasAre(redis.holds, {});
    assert ListedIds(redis, u, redis.index.Keys) == {};
    TotalEmpty(Deltas(redis.holds, {}));
  }

  /** The reaper finds the first request's reservation, which should have been committed. */
  lemma FirstReaped()
    ensures
      var s := FirstUncommitted();
      Enabled(s, DoRelease(First())) && Unreserve(s, First()) == CounterLost()
  {
    hide Unreserve, Release;
    KeysReleased();
    UnreadRelease(FirstUncommitted(), First());
  }

  lemma KeysReleased()
    ensures Release(Keys(1, Held(First())), 0, First()) == Keys(0, map[])
  {
    var redis := Release(Keys(1, Held(First())), 0, First());
    assert redis.holds.Keys == {} && redis.index.Keys == {};
    assert redis.usage == map[0 := Amount(0, 0)];
  }

  /** The release of a landed reservation while nobody reads usage, field by field. */
  lemma UnreadRelease(s: State, rid: ReservationId)
    requires rid in s.redis.holds && rid.request in s.landed && s.readers.Keys == {} && rid !in s.doubled
    ensures
      var hold := s.redis.holds[rid];
      Unreserve(s, rid) == s.(
        redis := Release(s.redis, hold.user, rid),
        debt := s.debt[hold.user := At(s.debt, hold.user).Plus(hold.delta)])
  {
    hide SettleAllReaders, Release;
    var hold := s.redis.holds[rid];
    assert SettleAllReaders(s.readers, rid.request, hold.user, hold.delta) == s.readers;
    assert s.doubled - {rid} == s.doubled;
  }

  lemma SecondReserves()
    ensures
      var s := ReadBy(SecondAsks(), 2, Seen(1, {0}, 0));
      Enabled(s, TryReserve(2, 1, 600)) && DoReserve(s, 2, 1, 600) == SecondHolds()
  {
    hide DoReserve;
    GrantedReserve(ReadBy(SecondAsks(), 2, Seen(1, {0}, 0)), 2, 1, 600);
  }

  lemma SecondLands()
    ensures CanLand(SecondHolds(), 1) && DoLand(SecondHolds(), 1, true) == BothDurable()
  {
    hide DoLand;
    BackedLanding(SecondHolds(), 1, true);
  }

  lemma NothingUnlanded()
    ensures Total(Unlanded(Held(Second()), {0, 1}, 0)) == Zero()
  {
    hide Total, Unlanded;
    UnlandedAre(Held(Second()), {0, 1}, 0);
    TotalEmpty(Unlanded(Held(Second()), {0, 1}, 0));
  }

  lemma LoadOfBoth()
    ensures Load(BothDurable(), 0) == Amount(2, 0)
  {
    hide Total, Durable, Unlanded;
    NothingUnlanded();
    TwoSecrets();
  }

  // The runs.

  /** The first request obtains its reservation. */
  function Opening(): seq<Step> {
    [Arrive(0, TextCreate, 0, 0)] + AllReads(0, 0) + [TryReserve(0, 0, 600)]
  }

  /** A commit overtakes the read that a reconciliation uses. */
  function Overtaken(): seq<Step> {
    Opening() + AllReads(1, 0) + [Land(0, true)] + [DoCommit(First())] + [DoReconcile(1)]
  }

  /** The commit gets lost, and the reaper comes. */
  function Reaped(): seq<Step> {
    Opening() + [Land(0, true)] + [DoRelease(First())]
  }

  /** The second request obtains a reservation and lands. */
  function Another(steps: seq<Step>): seq<Step> {
    steps + [Arrive(1, TextCreate, 0, 0)] + AllReads(2, 0) + [TryReserve(2, 1, 600)] + [Land(1, true)]
  }

  ghost function Start(): State { Empty(map[0 := Amount(1, 1)]) }

  lemma Opened()
    ensures Leads(Start(), Opening(), FirstHolds())
  {
    hide Leads, Durable, DoReserve, FirstHolds;
    assert Leads(Start(), [], Start()) by { LeadsNowhere(Start()); }
    LeadsOn(Start(), [], Start(), Arrive(0, TextCreate, 0, 0));
    assert DoArrive(Start(), 0, TextCreate, 0, 0) == Asked();
    assert [] + [Arrive(0, TextCreate, 0, 0)] == [Arrive(0, TextCreate, 0, 0)];
    NoRows(map[], map[], map[], 0);
    AtomicRead(Start(), [Arrive(0, TextCreate, 0, 0)], Asked(), 0, 0);
    FirstReserves();
    LeadsOn(Start(), [Arrive(0, TextCreate, 0, 0)] + AllReads(0, 0), ReadBy(Asked(), 0, Seen(0, {}, 0)),
            TryReserve(0, 0, 600));
  }

  lemma OvertakenLosesCounter()
    ensures Leads(Start(), Overtaken(), CounterLost())
  {
    hide Leads, Opening, Durable, DoLand, FirstHolds, FirstDurable, SettleHold, RunReconcile, CounterLost;
    Opened();
    var steps := Opening() + AllReads(1, 0);
    ReadsNothing();
    AtomicRead(Start(), Opening(), FirstHolds(), 1, 0);
    FirstLands();
    LeadsOn(Start(), steps, ReadBy(FirstHolds(), 1, Seen(0, {}, 0)), Land(0, true));
    FirstCommits();
    LeadsOn(Start(), steps + [Land(0, true)], FirstDurable(Keys(1, Held(First())), 0), DoCommit(First()));
    StaleReconcile();
    LeadsOn(Start(), steps + [Land(0, true)] + [DoCommit(First())], FirstDurable(Keys(1, map[]), 1), DoReconcile(1));
  }

  lemma ReadsNothing()
    ensures FreshRead(FirstHolds(), 0) == Seen(0, {}, 0) && 1 !in FirstHolds().readers
  {
    hide Durable;
    NoRows(map[], map[], map[], 0);
  }

  lemma ReapedLosesCounter()
    ensures Leads(Start(), Reaped(), CounterLost())
  {
    hide Leads, Opening, DoLand, Unreserve, FirstHolds, FirstUncommitted, CounterLost;
    Opened();
    FirstLandsAlone();
    LeadsOn(Start(), Opening(), FirstHolds(), Land(0, true));
    FirstReaped();
    LeadsOn(Start(), Opening() + [Land(0, true)], FirstUncommitted(), DoRelease(First()));
  }

  lemma AnotherSecret(steps: seq<Step>)
    requires Leads(Start(), steps, CounterLost())
    ensures Leads(Start(), Another(steps), BothDurable())
  {
    hide Leads, Durable, DoReserve, DoLand, SecondHolds, BothDurable;
    LeadsOn(Start(), steps, CounterLost(), Arrive(1, TextCreate, 0, 0));
    assert DoArrive(CounterLost(), 1, TextCreate, 0, 0) == SecondAsks();
    OneSecret();
    AtomicRead(Start(), steps + [Arrive(1, TextCreate, 0, 0)], SecondAsks(), 2, 0);
    SecondReserves();
    var asked := steps + [Arrive(1, TextCreate, 0, 0)] + AllReads(2, 0);
    LeadsOn(Start(), asked, ReadBy(SecondAsks(), 2, Seen(1, {0}, 0)), TryReserve(2, 1, 600));
    SecondLands();
    LeadsOn(Start(), asked + [TryReserve(2, 1, 600)], SecondHolds(), Land(1, true));
  }

  /** Two secrets with a limit of one; what is too much is the recorded excess. */
  ghost predicate OneTooMany(s: State) {
    Limit(s.limits, 0) == Amount(1, 1) && Load(s, 0) == Amount(2, 0) && At(s.excess, 0) == Amount(1, 0)
  }

  lemma BothAreTooMany()
    ensures OneTooMany(BothDurable())
  {
    hide Load;
    LoadOfBoth();
  }

  /** Quota safety fails on a run whose reconciliation uses a read that a commit has overtaken. */
  lemma StaleReconcileBreaksTheLimit()
    ensures Legal(Start(), Another(Overtaken())) && OneTooMany(Run(Start(), Another(Overtaken())))
  {
    hide Legal, Run, Overtaken, Another, BothDurable, OneTooMany, CounterLost;
    OvertakenLosesCounter();
    AnotherSecret(Overtaken());
    BothAreTooMany();
  }

  /** Quota safety fails on a run whose commit is lost, so that the reaper undoes a reservation that is durable. */
  lemma LostCommitBreaksTheLimit()
    ensures Legal(Start(), Another(Reaped())) && OneTooMany(Run(Start(), Another(Reaped())))
  {
    hide Legal, Run, Reaped, Another, BothDurable, OneTooMany, CounterLost;
    ReapedLosesCounter();
    AnotherSecret(Reaped());
    BothAreTooMany();
  }
}
