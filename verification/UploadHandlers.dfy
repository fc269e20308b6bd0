/** The handlers that create secrets and file versions, statement by statement, with any faults and any interference
    between their statements: each of their executions is a run of the backend. */
module UploadHandlers {
  import opened Amounts
  import opened QuotaScripts
  import opened Backend
  import opened UsageSums
  import opened Shapes
  import opened QuotaSafety
  import opened QuotaRuns
  import opened SagaSafety

  /** A call works, or fails without effect, or takes effect while the handler hears of a failure. */
  datatype Call = Works | Fails | Unheard {
    predicate Happens() { !Fails? }
  }

  /** What befalls a handler. `refused` is a check that fails before anything is reserved; the bools of the clean-up are
      calls that fail, and since the handler ignores how those end, a lost reply makes no difference there. */
  datatype Faults = Faults(
    refused: bool,
    infected: bool,
    secretReserve: Call,
    byteReserve: Call,
    pendingInsert: Call,
    upload: Call,
    transaction: Call,
    secretCommit: Call,
    byteCommit: Call,
    reconcile: bool,
    objectDelete: bool,
    byteRelease: bool,
    secretRelease: bool)

  // ---------- Interference ----------

  /** Steps of everybody but the handler of request j, which reads usage under the number r. The sweep and the reaper
      may release its reservations. */
  predicate Foreign(step: Step, j: nat, r: nat) {
    match step
    case Arrive(k, _, _, _) => k != j
    case StartRead(q, _) => q != r
    case Read(q) => q != r
    case TryReserve(q, k, _) => q != r && k != j
    case DoReconcile(q) => q != r
    case StageUpload(k) => k != j
    case StoreObject(k) => k != j
    case Land(k, _) => k != j
    case Fail(k) => k != j
    case Crash(k) => k != j
    case DeleteOwnObject(k) => k != j
    case DoCommit(rid) => rid.request != j
    case _ => true
  }

  /** What the handler relies on: its phase, its usage read, and that what is gone stays gone. */
  ghost predicate Undisturbed(s: State, s': State, j: nat, r: nat) {
    && j in s.jobs && j in s'.jobs && s'.jobs[j] == s.jobs[j]
    && (r in s.readers <==> r in s'.readers)
    && (r in s.readers ==> s'.readers[r].progress == s.readers[r].progress && s'.readers[r].user == s.readers[r].user)
    && NoMore(s, s', j)
  }

  /** No new reservations and no new object for request j. */
  ghost predicate NoMore(s: State, s': State, j: nat) {
    && (forall d :: ReservationId(j, d) in s'.redis.holds ==> ReservationId(j, d) in s.redis.holds)
    && (j in s'.objects ==> j in s.objects)
  }

  /** And what is gone stays away. */
  lemma NoMoreOn(s: State, s': State, s'': State, j: nat)
    requires NoMore(s, s', j) && NoMore(s', s'', j)
    ensures NoMore(s, s'', j)
    ensures j !in s'.objects ==> j !in s''.objects
    ensures forall d :: ReservationId(j, d) !in s'.redis.holds ==> ReservationId(j, d) !in s''.redis.holds
  {
  }

  /** No new object, and no new reservation other than for one dimension. */
  ghost predicate NoMoreBut(d: Dim, s: State, s': State, j: nat) {
    && (forall e :: e != d && ReservationId(j, e) in s'.redis.holds ==> ReservationId(j, e) in s.redis.holds)
    && (j in s'.objects ==> j in s.objects)
  }

  /** Nothing is left of request j but its number. */
  ghost predicate Traceless(s: State, j: nat) {
    ReservationId(j, Secrets) !in s.redis.holds && ReservationId(j, Bytes) !in s.redis.holds && j !in s.objects
  }

  lemma ForeignKeepsJob(s: State, step: Step, j: nat, r: nat)
    requires Enabled(s, step) && Foreign(step, j, r) && j in s.jobs
    ensures j in Apply(s, step).jobs && Apply(s, step).jobs[j] == s.jobs[j]
    ensures j in Apply(s, step).objects ==> j in s.objects
  {
    hide Total, Ask, ReadOn, Stray, StrayAll, SettleAllReaders, Release, Commit, Owed, Recounted, Enqueued, Remaining;
    hide LandedSecrets, LandedFiles, WithoutOwner, WithoutPayer, Payer, Charge, CanLand;
  }

  lemma ForeignKeepsReader(s: State, step: Step, j: nat, r: nat)
    requires Enabled(s, step) && Foreign(step, j, r)
    ensures
      var s' := Apply(s, step);
      && (r in s.readers <==> r in s'.readers)
      && (r in s.readers ==> s'.readers[r].progress == s.readers[r].progress && s'.readers[r].user == s.readers[r].user)
  {
    hide Ask, ReadOn, Stray, LandedSecrets, LandedFiles, Release, Commit, Owed, Recounted, Enqueued, Remaining;
    hide SettleAllReaders, StrayAll, WithoutOwner, WithoutPayer, Payer, Charge;
    if step.Read? {
      ReadingOn(s, s.readers[step.r]);
    }
  }

  lemma ReadingOn(s: State, rd: Reader)
    requires rd.progress < 3
    ensures ReadOn(s, rd).progress == rd.progress + 1 && ReadOn(s, rd).user == rd.user
  {
    hide Total, OwnedSecrets, ActiveFiles, QueuedFiles;
  }

  lemma ForeignKeepsHolds(s: State, step: Step, j: nat, r: nat, d: Dim)
    requires Enabled(s, step) && Foreign(step, j, r)
    ensures ReservationId(j, d) in Apply(s, step).redis.holds ==> ReservationId(j, d) in s.redis.holds
  {
    hide Total, SettleAllReaders, StrayAll, Ask;
    if step.TryReserve? {
      AskEffect(s, step.r, step.j, step.expiresAt);
    }
  }

  lemma ForeignUndisturbed(s: State, step: Step, j: nat, r: nat)
    requires Enabled(s, step) && Foreign(step, j, r) && j in s.jobs
    ensures Undisturbed(s, Apply(s, step), j, r)
  {
    hide Apply;
    ForeignKeepsJob(s, step, j, r);
    ForeignKeepsReader(s, step, j, r);
    forall d ensures ReservationId(j, d) in Apply(s, step).redis.holds ==> ReservationId(j, d) in s.redis.holds {
      ForeignKeepsHolds(s, step, j, r, d);
    }
  }

  lemma {:induction false} InterferenceUndisturbed(s: State, steps: seq<Step>, j: nat, r: nat)
    requires Legal(s, steps) && j in s.jobs && forall step :: step in steps ==> Foreign(step, j, r)
    ensures Undisturbed(s, Run(s, steps), j, r)
    decreases |steps|
  {
    hide Enabled, Apply, Foreign;
    if steps != [] {
      ForeignUndisturbed(s, steps[0], j, r);
      InterferenceUndisturbed(Apply(s, steps[0]), steps[1..], j, r);
    }
  }

  // ---------- What no step takes back ----------

  /** Deleted users stay deleted, committed transactions stay committed, and a secret does not come back once the
      request that created it is over. */
  ghost predicate Onward(s: State, s': State) {
    && s.gone <= s'.gone && s.landed <= s'.landed
    && forall k :: k in s.jobs && !s.jobs[k].Live() ==>
         k in s'.jobs && !s'.jobs[k].Live() && (k in s'.secrets ==> k in s.secrets)
  }

  lemma StepOnward(s: State, step: Step)
    requires Enabled(s, step)
    ensures Onward(s, Apply(s, step))
  {
    hide Ask, ReadOn, Stray, StrayAll, SettleAllReaders, Release, Commit, Owed, Recounted, Enqueued, Remaining;
    hide LandedFiles, WithoutOwner, WithoutPayer, Payer, Charge;
  }

  lemma OnwardOn(s: State, s': State, s'': State)
    requires Onward(s, s') && Onward(s', s'')
    ensures Onward(s, s'')
  {
  }

  lemma {:induction false} RunOnward(s: State, steps: seq<Step>)
    requires Legal(s, steps)
    ensures Onward(s, Run(s, steps))
    decreases |steps|
  {
    hide Enabled, Apply;
    if steps != [] {
      hide Onward;
      StepOnward(s, steps[0]);
      RunOnward(Apply(s, steps[0]), steps[1..]);
      OnwardOn(s, Apply(s, steps[0]), Run(s, steps));
    }
  }

  lemma PrefixOnward(start: State, a: seq<Step>, b: seq<Step>)
    requires a <= b && Legal(start, b)
    ensures Legal(start, a) && Onward(Run(start, a), Run(start, b))
  {
    hide Onward, Legal, Run;
    assert a + b[|a|..] == b;
    RunSplit(start, a, b[|a|..]);
    RunOnward(Run(start, a), b[|a|..]);
  }

  /** In a run, the reserve script has accepted whatever request j asked for. */
  ghost predicate AllGranted(s: State, steps: seq<Step>, j: nat)
    requires Legal(s, steps)
    decreases |steps|
  {
    steps != [] ==>
      && (steps[0].TryReserve? && steps[0].j == j ==> Ask(s, steps[0].r, j, steps[0].expiresAt).1.Accepted?)
      && AllGranted(Apply(s, steps[0]), steps[1..], j)
  }

  lemma {:induction false} GrantedSplit(s: State, a: seq<Step>, b: seq<Step>, j: nat)
    requires Legal(s, a + b) && AllGranted(s, a + b, j)
    ensures Legal(s, a) && Legal(Run(s, a), b) && AllGranted(s, a, j) && AllGranted(Run(s, a), b, j)
    decreases |a|
  {
    hide Enabled, Apply, Ask;
    if a == [] {
      assert a + b == b;
    } else {
      assert (a + b)[1..] == a[1..] + b;
      GrantedSplit(Apply(s, a[0]), a[1..], b, j);
    }
  }

  lemma PrefixGranted(start: State, a: seq<Step>, b: seq<Step>, j: nat)
    requires a <= b && Legal(start, b) && AllGranted(start, b, j)
    ensures Legal(start, a) && AllGranted(start, a, j)
  {
    hide Legal, AllGranted;
    assert a + b[|a|..] == b;
    GrantedSplit(start, a, b[|a|..], j);
  }

  lemma LastGranted(start: State, a: seq<Step>, step: Step, j: nat)
    requires Legal(start, a + [step]) && AllGranted(start, a + [step], j)
    ensures Legal(start, a)
    ensures step.TryReserve? && step.j == j ==>
              && Enabled(Run(start, a), step)
              && Ask(Run(start, a), step.r, j, step.expiresAt).1.Accepted?
  {
    hide Ask, Apply;
    GrantedSplit(start, a, [step], j);
  }

  lemma SecretIsOver(s: State, k: nat)
    requires Shape(s) && k in s.secrets
    ensures k in s.jobs && !s.jobs[k].Live()
  {
    hide HoldsFit, PendingFits, ReadersFit, DoublesFit;
  }

  /** The reserve script reports the counter that it leaves. */
  lemma AskReports(s: State, r: nat, j: nat, at: int)
    requires r in s.readers && j in s.jobs
    ensures
      var (redis, reply) := Ask(s, r, j, at);
      && s.jobs[j].user in redis.usage && redis.usage[s.jobs[j].user] == reply.now
      && (reply.Accepted? ==>
            var rid := ReservationId(j, Charge(s.jobs[j])); rid in redis.index && redis.index[rid] == at)
  {
    hide Limit;
  }

  // ---------- The handlers ----------

  /** The steps that a handler takes for its request. */
  predicate Taken(step: Step, j: nat, r: nat) {
    match step
    case Arrive(k, _, _, _) => k == j
    case StartRead(q, _) => q == r
    case Read(q) => q == r
    case TryReserve(q, k, _) => q == r && k == j
    case DoReconcile(q) => q == r
    case StageUpload(k) => k == j
    case StoreObject(k) => k == j
    case Land(k, _) => k == j
    case Fail(k) => k == j
    case DeleteOwnObject(k) => k == j
    case DoRelease(rid) => rid.request == j
    case DoCommit(rid) => rid.request == j
    case _ => false
  }

  /** What a handler itself has undone or repaired, whatever others did meanwhile. */
  datatype Deeds = Deeds(deleted: bool, releasedBytes: bool, releasedSecret: bool, reconciled: bool) {
    function With(step: Step): Deeds {
      match step
      case DeleteOwnObject(_) => this.(deleted := true)
      case DoRelease(ReservationId(_, Bytes)) => this.(releasedBytes := true)
      case DoRelease(ReservationId(_, Secrets)) => this.(releasedSecret := true)
      case DoReconcile(_) => this.(reconciled := true)
      case _ => this
    }
  }

  /** One request's view of the backend: its state, the run that led to it, and what the handler itself has undone
      or repaired. */
  class Handler {
    ghost const start: State
    ghost var state: State
    ghost var trace: seq<Step>
    ghost var deeds: Deeds
    ghost const j: nat
    ghost const r: nat

    ghost predicate Valid()
      reads this
    {
      Legal(start, trace) && state == Run(start, trace)
    }

    ghost predicate Present()
      reads this
    {
      Valid() && j in state.jobs && r !in state.readers
    }

    /** Whether the request has a reservation for the dimension. */
    ghost predicate Holds(d: Dim)
      reads this
    {
      ReservationId(j, d) in state.redis.holds
    }

    ghost constructor (s: State, j: nat, r: nat)
      ensures Valid() && state == s == start && trace == [] && this.j == j && this.r == r
      ensures deeds == Deeds(false, false, false, false)
    {
      this.start, state, trace, this.j, this.r := s, s, [], j, r;
      deeds := Deeds(false, false, false, false);
    }

    ghost method Do(step: Step)
      requires Valid() && Enabled(state, step) && Taken(step, j, r)
      modifies this
      ensures Valid() && state == Apply(old(state), step) && trace == old(trace) + [step]
      ensures deeds == old(deeds).With(step)
    {
      RunThenStep(start, trace, step);
      state, trace, deeds := Apply(state, step), trace + [step], deeds.With(step);
    }

    /** Any number of foreign steps. */
    ghost method Interfere()
      requires Valid() && j in state.jobs
      modifies this
      ensures old(trace) <= trace && deeds == old(deeds)
      ensures Valid() && Undisturbed(old(state), state, j, r)
    {
      assert Legal(state, []);
      var steps :| Legal(state, steps) && forall step :: step in steps ==> Foreign(step, j, r);
      InterferenceUndisturbed(state, steps, j, r);
      RunJoin(start, trace, steps);
      state, trace := Run(state, steps), trace + steps;
    }

    ghost method ReadUsage()
      requires Present()
      modifies this
      ensures old(trace) <= trace && deeds == old(deeds)
      ensures Valid() && j in state.jobs && state.jobs[j] == old(state.jobs[j]) && NoMore(old(state), state, j)
      ensures r in state.readers && state.readers[r].progress == 3 && state.readers[r].user == state.jobs[j].user
    {
      hide Legal, Run, ReadOn;
      Do(StartRead(r, state.jobs[j].user));
      Interfere();
      ReadOneMore();
      ReadOneMore();
      ReadOneMore();
    }

    ghost method ReadOneMore()
      requires Valid() && j in state.jobs && r in state.readers && state.readers[r].progress < 3
      modifies this
      ensures old(trace) <= trace && deeds == old(deeds)
      ensures Valid() && j in state.jobs && state.jobs[j] == old(state.jobs[j]) && NoMore(old(state), state, j)
      ensures
        && r in state.readers && state.readers[r].user == old(state.readers[r].user)
        && state.readers[r].progress == old(state.readers[r].progress) + 1
    {
      hide Legal, Run, OwnedSecrets, ActiveFiles, QueuedFiles;
      Do(Read(r));
      Interfere();
    }

    /** The reaper will see the reservation once that time has come. */
    ghost predicate Listed(d: Dim, expiresAt: int)
      reads this
    {
      var rid := ReservationId(j, d);
      rid in state.redis.index && state.redis.index[rid] == expiresAt
    }

    /** What the reserve script left behind for a dimension of the request: the counter it reports, which fits the limit
        and includes the reservation if that was granted, and has no room for it otherwise. */
    ghost predicate Answered(d: Dim, reply: Reply, expiresAt: int)
      requires j in state.jobs
      reads this
    {
      var user := state.jobs[j].user;
      && user in state.redis.usage && state.redis.usage[user] == reply.now
      && (reply.Accepted? ==> Holds(d) && reply.now.Leq(Limit(state.limits, user)) && Listed(d, expiresAt))
      && (reply.Denied? ==> !reply.now.Plus(state.jobs[j].Delta(d)).Leq(Limit(state.limits, user)))
    }

    /** quota_service.reserve: a usage read, then the reserve script, unless the call fails before it. If the reply is
        lost, the reservation may be held although the handler knows of none. */
    ghost method ReserveNext(expiresAt: int, call: Call) returns (granted: bool, reply: Reply)
      requires Present() && NextCharge(state.jobs[j]) != {}
      modifies this
      ensures old(trace) <= trace && deeds == old(deeds)
      ensures Present() && (granted <==> call.Works? && reply.Accepted?)
      ensures call.Happens() ==> Answered(Charge(old(state.jobs[j])), reply, expiresAt)
      ensures call.Happens() && AllGranted(start, trace, j) ==> reply.Accepted?
      ensures
        var job := old(state.jobs[j]);
        state.jobs[j] == job.(phase := if !granted then Failed else if Charge(job).Secrets? then Granted else Funded)
      ensures !granted && !call.Unheard? ==> NoMore(old(state), state, j)
      ensures NoMoreBut(Charge(old(state.jobs[j])), old(state), state, j)
    {
      hide Legal, Run, Ask, Limit, AllGranted;
      if call.Fails? {
        FailNow();
        return false, Denied(0, Zero());
      }
      ReadUsage();
      reply := Ask(state, r, j, expiresAt).1;
      AskEffect(state, r, j, expiresAt);
      AskReports(state, r, j, expiresAt);
      ghost var before := trace;
      Do(TryReserve(r, j, expiresAt));
      if AllGranted(start, trace, j) {
        LastGranted(start, before, TryReserve(r, j, expiresAt), j);
      }
      granted := call.Works? && reply.Accepted?;
      if reply.Accepted? && call.Unheard? {
        FailNow();
      }
    }

    ghost method FailNow()
      requires Present() && state.jobs[j].Live()
      modifies this
      ensures old(trace) <= trace && deeds == old(deeds)
      ensures Present() && state.jobs[j] == old(state.jobs[j]).(phase := Failed) && NoMore(old(state), state, j)
      ensures state.redis == old(state.redis) && state.limits == old(state.limits)
      ensures state.pending == old(state.pending)
    {
      hide Legal, Run;
      Do(Fail(j));
    }

    /** quota_service.release: a missing reservation is left alone. */
    ghost method ReleaseOne(d: Dim)
      requires Present()
      modifies this
      ensures old(trace) <= trace
      ensures deeds == old(deeds) || deeds == old(deeds).With(DoRelease(ReservationId(j, d)))
      ensures Present() && state.jobs[j] == old(state.jobs[j]) && NoMore(old(state), state, j)
      ensures !Holds(d)
    {
      hide Legal, Run;
      if ReservationId(j, d) in state.redis.holds {
        Do(DoRelease(ReservationId(j, d)));
      }
    }

    ghost method CommitOne(d: Dim)
      requires Present() && state.jobs[j].phase.Landed?
      modifies this
      ensures old(trace) <= trace && deeds == old(deeds)
      ensures Present() && state.jobs[j] == old(state.jobs[j]) && NoMore(old(state), state, j)
      ensures !Holds(d)
    {
      hide Legal, Run;
      if ReservationId(j, d) in state.redis.holds {
        Do(DoCommit(ReservationId(j, d)));
      }
    }

    ghost method StageNow()
      requires Present() && state.jobs[j].phase.Funded? && state.jobs[j].user !in state.gone
      modifies this
      ensures old(trace) <= trace && deeds == old(deeds)
      ensures Present() && state.jobs[j] == old(state.jobs[j]).(phase := Staged) && NoMore(old(state), state, j)
      ensures j in state.pending
    {
      hide Legal, Run;
      Do(StageUpload(j));
    }

    ghost method StoreNow()
      requires Present() && state.jobs[j].phase.Staged?
      modifies this
      ensures old(trace) <= trace && deeds == old(deeds)
      ensures Present() && state.jobs[j] == old(state.jobs[j]).(phase := Stored)
      ensures state.redis == old(state.redis) && j in state.objects
    {
      hide Legal, Run;
      Do(StoreObject(j));
    }

    ghost method LandNow(reported: bool)
      requires Present() && CanLand(state, j)
      modifies this
      ensures old(trace) <= trace && deeds == old(deeds)
      ensures Present() && state.jobs[j] == old(state.jobs[j]).(phase := if reported then Landed else Failed)
      ensures NoMore(old(state), state, j) && j in state.landed
    {
      hide Legal, Run, Stray, LandedSecrets, LandedFiles;
      Do(Land(j, reported));
    }

    /** After a commit nothing is undone, and the counter is repaired exactly when a commit is not heard to work. */
    static predicate Settles(f: Faults, hasSecret: bool, before: Deeds, after: Deeds) {
      var repairs := !f.reconcile && ((hasSecret && !f.secretCommit.Works?) || !f.byteCommit.Works?);
      after == before.(reconciled := before.reconciled || repairs)
    }

    /** Whether the upload meets no fault. */
    static predicate Uploads(f: Faults) {
      f.pendingInsert.Works? && f.upload.Works? && f.transaction.Works?
    }

    /** The secret that the request adds a version to, if any, is still there, and was there at the given state. */
    ghost predicate Target(s: State)
      requires j in state.jobs
      reads this
    {
      state.jobs[j].kind.FileUpdate? ==>
        var secret := state.jobs[j].kind.secret;
        secret in state.secrets && secret in s.jobs && !s.jobs[secret].Live()
    }

    /** From the pending row to the commit of the version; stops at the first fault. Without a fault it commits, unless
        the user or the secret is gone. */
    ghost method UploadAndLand(f: Faults) returns (durable: bool)
      requires Present() && state.jobs[j].kind.HasFile() && state.jobs[j].phase.Funded?
      modifies this
      ensures old(trace) <= trace && deeds == old(deeds)
      ensures Present() && state.jobs[j] == old(state.jobs[j]).(phase := if durable then Landed else Failed)
      ensures durable ==> Uploads(f) && j in state.landed
      ensures Uploads(f) && state.jobs[j].user !in state.gone && Target(old(state)) ==> durable
      ensures forall d :: ReservationId(j, d) in state.redis.holds ==> ReservationId(j, d) in old(state.redis.holds)
    {
      hide Legal, Run, Apply, Enabled, Onward;
      ghost var funded := trace;
      Interfere();
      ghost var ready := trace;
      durable := StageIf(f.pendingInsert);
      if !durable {
        StillThere(funded, ready);
        return;
      }
      Interfere();
      if f.upload.Fails? {
        FailNow();
        return false;
      }
      StoreNow();
      if f.upload.Unheard? {
        FailNow();
        return false;
      }
      Interfere();
      ghost var stored := trace;
      durable := LandIf(f.transaction);
      StillThere(funded, stored);
    }

    /** Whoever is not gone now was not gone before, and a target that is there now was there before. */
    lemma StillThere(a: seq<Step>, b: seq<Step>)
      requires Valid() && a <= b <= trace && j in state.jobs
      ensures Legal(start, a) && Legal(start, b)
      ensures forall u :: u !in state.gone ==> u !in Run(start, b).gone
      ensures
        Target(Run(start, a)) && state.jobs[j].kind.FileUpdate? ==>
          state.jobs[j].kind.secret in Run(start, b).secrets
    {
      hide Legal, Run;
      PrefixOnward(start, b, trace);
      PrefixOnward(start, a, b);
    }

    ghost method StageIf(call: Call) returns (staged: bool)
      requires Present() && state.jobs[j].phase.Funded?
      modifies this
      ensures old(trace) <= trace && deeds == old(deeds)
      ensures Present() && state.jobs[j] == old(state.jobs[j]).(phase := if staged then Staged else Failed)
      ensures staged <==> call.Works? && old(state.jobs[j].user !in state.gone)
      ensures call.Happens() && old(state.jobs[j].user !in state.gone) ==> j in state.pending
      ensures NoMore(old(state), state, j)
    {
      hide Legal, Run, Apply, Enabled;
      if call.Fails? || state.jobs[j].user in state.gone {
        FailNow();
        return false;
      }
      StageNow();
      if call.Unheard? {
        FailNow();
        return false;
      }
      return true;
    }

    /** The transaction, or its failure. */
    ghost method LandIf(call: Call) returns (durable: bool)
      requires Present() && state.jobs[j].Live()
      modifies this
      ensures old(trace) <= trace && deeds == old(deeds)
      ensures Present() && state.jobs[j] == old(state.jobs[j]).(phase := if durable then Landed else Failed)
      ensures durable <==> call.Works? && old(CanLand(state, j))
      ensures call.Happens() && old(CanLand(state, j)) ==> j in state.landed
      ensures NoMore(old(state), state, j)
    {
      hide Legal, Run, Apply, Enabled, CanLand;
      if call.Fails? || !CanLand(state, j) {
        FailNow();
        return false;
      }
      LandNow(call.Works?);
      return call.Works?;
    }

    ghost method DeleteObject()
      requires Present() && state.jobs[j].phase.Failed?
      modifies this
      ensures old(trace) <= trace && deeds == old(deeds).(deleted := true)
      ensures Present() && state.jobs[j] == old(state.jobs[j]) && NoMore(old(state), state, j) && j !in state.objects
    {
      hide Legal, Run;
      Do(DeleteOwnObject(j));
    }

    ghost method DeleteIf(goes: bool)
      requires Present() && state.jobs[j].phase.Failed?
      modifies this
      ensures old(trace) <= trace && deeds == old(deeds).(deleted := old(deeds.deleted) || goes)
      ensures Present() && state.jobs[j] == old(state.jobs[j]) && NoMore(old(state), state, j)
      ensures goes ==> j !in state.objects
    {
      hide Legal, Run, Apply, Enabled;
      Interfere();
      if goes {
        DeleteObject();
      }
      Interfere();
    }

    ghost method ReleaseIf(d: Dim, goes: bool)
      requires Present()
      modifies this
      ensures old(trace) <= trace
      ensures deeds == old(deeds) || (goes && deeds == old(deeds).With(DoRelease(ReservationId(j, d))))
      ensures Present() && state.jobs[j] == old(state.jobs[j]) && NoMore(old(state), state, j)
      ensures goes ==> !Holds(d)
    {
      hide Legal, Run, Apply, Enabled;
      if goes {
        ReleaseOne(d);
      }
      Interfere();
    }

    /** A compensation deletes and releases what it is asked to, as far as the calls work, and nothing else. */
    static predicate Compensates(f: Faults, hasObject: bool, hasBytes: bool, hasSecret: bool, before: Deeds,
                                 after: Deeds)
    {
      && after.deleted == (before.deleted || (hasObject && !f.objectDelete))
      && (after.releasedBytes == before.releasedBytes || (after.releasedBytes && hasBytes && !f.byteRelease))
      && (after.releasedSecret == before.releasedSecret || (after.releasedSecret && hasSecret && !f.secretRelease))
      && after.reconciled == before.reconciled
    }

    /** The except branch: delete the object and release what was reserved; each of the three may fail on its own. */
    ghost method Compensate(f: Faults, hasObject: bool, hasBytes: bool, hasSecret: bool)
      requires Present() && state.jobs[j].phase.Failed?
      modifies this
      ensures old(trace) <= trace && Compensates(f, hasObject, hasBytes, hasSecret, old(deeds), deeds)
      ensures Present() && state.jobs[j] == old(state.jobs[j]) && NoMore(old(state), state, j)
      ensures hasObject && !f.objectDelete ==> j !in state.objects
      ensures hasBytes && !f.byteRelease ==> !Holds(Bytes)
      ensures hasSecret && !f.secretRelease ==> !Holds(Secrets)
    {
      hide Legal, Run, Apply, Enabled, NoMore, Compensates;
      ghost var before, undone := state, deeds;
      DeleteIf(hasObject && !f.objectDelete);
      ghost var deleted, afterwards := state, deeds;
      ReleaseIf(Bytes, hasBytes && !f.byteRelease);
      NoMoreOn(before, deleted, state, j);
      ghost var released, next := state, deeds;
      ReleaseIf(Secrets, hasSecret && !f.secretRelease);
      NoMoreOn(deleted, released, state, j);
      NoMoreOn(before, released, state, j);
      Compensated(f, hasObject, hasBytes, hasSecret, undone, afterwards, next, deeds, j);
    }

    static lemma Compensated(f: Faults, hasObject: bool, hasBytes: bool, hasSecret: bool, a: Deeds, b: Deeds, c: Deeds,
                             d: Deeds, j: nat)
      requires b == a.(deleted := a.deleted || (hasObject && !f.objectDelete))
      requires c == b || (hasBytes && !f.byteRelease && c == b.With(DoRelease(ReservationId(j, Bytes))))
      requires d == c || (hasSecret && !f.secretRelease && d == c.With(DoRelease(ReservationId(j, Secrets))))
      ensures Compensates(f, hasObject, hasBytes, hasSecret, a, d)
    {
    }

    ghost method ReconcileNow()
      requires Present()
      modifies this
      ensures old(trace) <= trace && deeds == old(deeds).(reconciled := true)
      ensures Present() && state.jobs[j] == old(state.jobs[j]) && NoMore(old(state), state, j)
      ensures DoReconcile(r) in trace[|old(trace)|..]
    {
      hide Legal, Run, Owed, Recounted;
      ghost var before := trace;
      ReadUsage();
      Do(DoReconcile(r));
      assert trace[|trace| - 1] == DoReconcile(r) && |before| < |trace|;
    }

    /** What is in a part of the run is in every larger part. */
    lemma Later(a: seq<Step>, b: seq<Step>, c: seq<Step>)
      requires a <= b <= c <= trace
      ensures forall step :: step in c[|b|..] ==> step in trace[|a|..]
    {
      forall step | step in c[|b|..] ensures step in trace[|a|..] {
        var i :| 0 <= i < |c| - |b| && c[|b|..][i] == step;
        assert trace[|a|..][|b| - |a| + i] == step;
      }
    }

    /** The commits run one after the other, up to the first that is not heard to work. */
    ghost method CommitAll(f: Faults, hasSecret: bool) returns (heard: bool)
      requires Present() && state.jobs[j].phase.Landed?
      modifies this
      ensures old(trace) <= trace && deeds == old(deeds)
      ensures Present() && state.jobs[j] == old(state.jobs[j])
      ensures heard == ((hasSecret ==> f.secretCommit.Works?) && f.byteCommit.Works?)
      ensures hasSecret && f.secretCommit.Happens() ==> !Holds(Secrets)
      ensures (hasSecret ==> f.secretCommit.Works?) && f.byteCommit.Happens() ==> !Holds(Bytes)
    {
      hide Legal, Run, Apply, Enabled;
      Interfere();
      heard := true;
      if hasSecret {
        heard := CommitIf(Secrets, f.secretCommit);
        Interfere();
      }
      if heard {
        heard := CommitIf(Bytes, f.byteCommit);
        Interfere();
      }
    }

    /** After the transaction: commit the reservations, and reconcile unless all commits are heard to work. */
    ghost method Settle(f: Faults, hasSecret: bool)
      requires Present() && state.jobs[j].phase.Landed?
      modifies this
      ensures old(trace) <= trace
      ensures Settles(f, hasSecret, old(deeds), deeds)
      ensures Present() && state.jobs[j] == old(state.jobs[j])
      ensures hasSecret && f.secretCommit.Happens() ==> !Holds(Secrets)
      ensures (hasSecret ==> f.secretCommit.Works?) && f.byteCommit.Happens() ==> !Holds(Bytes)
      ensures
        (!f.reconcile && ((hasSecret && !f.secretCommit.Works?) || !f.byteCommit.Works?)) ==>
          DoReconcile(r) in trace[|old(trace)|..]
    {
      hide Legal, Run, Apply, Enabled;
      var heard := CommitAll(f, hasSecret);
      if !heard && !f.reconcile {
        ghost var settled := trace;
        ReconcileNow();
        ghost var reconciled := trace;
        Interfere();
        Later(old(trace), settled, reconciled);
      }
    }

    ghost method CommitIf(d: Dim, call: Call) returns (heard: bool)
      requires Present() && state.jobs[j].phase.Landed?
      modifies this
      ensures old(trace) <= trace && deeds == old(deeds)
      ensures Present() && state.jobs[j] == old(state.jobs[j]) && NoMore(old(state), state, j) && heard == call.Works?
      ensures call.Happens() ==> !Holds(d)
    {
      hide Legal, Run, Apply, Enabled;
      if call.Happens() {
        CommitOne(d);
      }
      return call.Works?;
    }

    ghost method ArriveNow(kind: Kind, user: UserId, size: nat)
      requires Valid() && j !in state.jobs && r !in state.readers && Traceless(state, j)
      modifies this
      ensures old(trace) <= trace && deeds == old(deeds)
      ensures Present() && state.jobs[j] == Job(kind, user, size, Begun) && Traceless(state, j)
    {
      hide Legal, Run;
      Do(Arrive(j, kind, user, size));
      Interfere();
    }

    /** The transaction of create_secret and what follows it. */
    ghost method LandText(f: Faults) returns (durable: bool)
      requires Present() && state.jobs[j].kind.TextCreate? && state.jobs[j].phase.Granted?
      modifies this
      ensures old(trace) <= trace
      ensures durable ==> deeds == old(deeds)
      ensures !durable ==> Compensates(f, false, false, true, old(deeds), deeds)
      ensures Present() && state.jobs[j] == old(state.jobs[j]).(phase := if durable then Landed else Failed)
      ensures NoMore(old(state), state, j)
      ensures durable ==> f.transaction.Works? && j in state.landed
      ensures f.transaction.Works? && state.jobs[j].user !in state.gone ==> durable
      ensures durable && f.secretCommit.Happens() ==> !Holds(Secrets)
      ensures !durable && !f.secretRelease ==> !Holds(Secrets)
    {
      hide Legal, Run, Apply, Enabled, Onward;
      Interfere();
      ghost var ready := trace;
      durable := LandIf(f.transaction);
      ghost var landed := trace;
      Interfere();
      if !durable {
        Compensate(f, false, false, true);
      } else {
        var _ := CommitIf(Secrets, f.secretCommit);
      }
      StillThere(ready, ready);
      StillLanded(landed);
    }

    /** create_secret: one reservation, one transaction; a commit that fails is not made up for. Without a fault it
        commits, if the reservation is granted and the user stays. */
    ghost method CreateText(user: UserId, expiresAt: int, f: Faults) returns (durable: bool)
      requires Valid() && j !in state.jobs && r !in state.readers && Traceless(state, j)
      modifies this
      ensures old(trace) <= trace
      ensures durable ==> deeds == old(deeds)
      ensures !durable ==> Compensates(f, false, false, true, old(deeds), deeds)
      ensures Present() && state.jobs[j] == Job(TextCreate, user, 0, if durable then Landed else Failed)
      ensures durable ==> f.secretReserve.Works? && f.transaction.Works? && j in state.landed
      ensures
        (&& f.secretReserve.Works? && f.transaction.Works?
         && AllGranted(start, trace, j) && user !in state.gone) ==> durable
      ensures durable && f.secretCommit.Happens() ==> !Holds(Secrets)
      ensures !durable && !f.secretRelease && !f.secretReserve.Unheard? ==> Traceless(state, j)
    {
      hide Legal, Run, Apply, Enabled, AllGranted, Onward;
      ArriveNow(TextCreate, user, 0);
      var granted, _ := ReserveNext(expiresAt, f.secretReserve);
      if !granted {
        return false;
      }
      durable := LandText(f);
    }

    lemma StillLanded(a: seq<Step>)
      requires Valid() && a <= trace
      ensures Legal(start, a) && (j in Run(start, a).landed ==> j in state.landed)
    {
      hide Legal, Run;
      PrefixOnward(start, a, trace);
    }

    /** The upload and what follows it: the settlement after a commit, the compensation otherwise. */
    ghost method UploadAndSettle(f: Faults, hasSecret: bool) returns (durable: bool)
      requires Present() && state.jobs[j].kind.HasFile() && state.jobs[j].phase.Funded?
      modifies this
      ensures old(trace) <= trace
      ensures durable ==> Settles(f, hasSecret, old(deeds), deeds)
      ensures !durable ==> Compensates(f, true, true, hasSecret, old(deeds), deeds)
      ensures Present() && state.jobs[j] == old(state.jobs[j]).(phase := if durable then Landed else Failed)
      ensures durable ==> Uploads(f) && j in state.landed
      ensures Uploads(f) && state.jobs[j].user !in state.gone && Target(old(state)) ==> durable
      ensures durable && hasSecret && f.secretCommit.Happens() ==> !Holds(Secrets)
      ensures durable && (hasSecret ==> f.secretCommit.Works?) && f.byteCommit.Happens() ==> !Holds(Bytes)
      ensures
        (durable && !f.reconcile && ((hasSecret && !f.secretCommit.Works?) || !f.byteCommit.Works?)) ==>
          DoReconcile(r) in trace[|old(trace)|..]
      ensures !durable && !f.objectDelete ==> j !in state.objects
      ensures !durable && !f.byteRelease ==> !Holds(Bytes)
      ensures !durable && hasSecret && !f.secretRelease ==> !Holds(Secrets)
    {
      hide Legal, Run, Apply, Enabled, Onward, Undisturbed, NoMore;
      ghost var funded := trace;
      durable := UploadAndLand(f);
      ghost var ended := trace;
      if durable {
        Settle(f, hasSecret);
        Later(funded, ended, trace);
      } else {
        Compensate(f, true, true, hasSecret);
      }
      StillThere(funded, ended);
      StillLanded(ended);
    }

    /** create_file_secret, once the secret is reserved. */
    ghost method ScanAndUpload(expiresAt: int, f: Faults) returns (durable: bool)
      requires Present() && state.jobs[j].kind.FileCreate? && state.jobs[j].phase.Granted?
      modifies this
      ensures old(trace) <= trace
      ensures durable ==> Settles(f, true, old(deeds), deeds)
      ensures !durable ==> Compensates(f, deeds.deleted, deeds.releasedBytes, true, old(deeds), deeds)
      ensures f.infected || f.byteReserve.Fails? ==> Compensates(f, false, false, true, old(deeds), deeds)
      ensures Present() && state.jobs[j] == old(state.jobs[j]).(phase := if durable then Landed else Failed)
      ensures durable ==> !f.infected && f.byteReserve.Works? && Uploads(f) && j in state.landed
      ensures
        (&& !f.infected && f.byteReserve.Works? && Uploads(f)
         && AllGranted(start, trace, j) && state.jobs[j].user !in state.gone) ==> durable
      ensures durable && f.secretCommit.Happens() ==> !Holds(Secrets)
      ensures durable && f.secretCommit.Works? && f.byteCommit.Happens() ==> !Holds(Bytes)
      ensures
        (durable && !f.reconcile && !(f.secretCommit.Works? && f.byteCommit.Works?)) ==>
          DoReconcile(r) in trace[|old(trace)|..]
      ensures !durable && !f.objectDelete && j !in old(state.objects) ==> j !in state.objects
      ensures
        !durable && !f.byteRelease && !f.byteReserve.Unheard? && ReservationId(j, Bytes) !in old(state.redis.holds) ==>
          !Holds(Bytes)
      ensures
        f.infected ==>
          && (j in state.objects ==> j in old(state.objects))
          && (Holds(Bytes) ==> ReservationId(j, Bytes) in old(state.redis.holds))
      ensures !durable && !f.secretRelease ==> !Holds(Secrets)
    {
      hide Legal, Run, Apply, Enabled, AllGranted, Onward;
      Interfere();
      if f.infected {
        FailNow();
        Compensate(f, false, false, true);
        return false;
      }
      ghost var scanned := trace;
      var granted, _ := ReserveNext(expiresAt, f.byteReserve);
      ghost var funded := trace;
      if !granted {
        Compensate(f, false, false, true);
        GrantedBefore(funded);
        return false;
      }
      durable := UploadAndSettle(f, true);
      Later(scanned, funded, trace);
      Later(old(trace), scanned, trace);
    }

    /** create_file_secret. It ends durable with the reservations settled whose commits took place, or without the
        object and the reservations whose clean-up took place. A reservation of which the handler never heard stays.
        Without a fault it commits, if the reservations are granted and the user stays. */
    ghost method CreateFile(user: UserId, size: nat, expiresAt: int, f: Faults) returns (durable: bool)
      requires Valid() && j !in state.jobs && r !in state.readers && Traceless(state, j)
      modifies this
      ensures old(trace) <= trace
      ensures durable ==> Settles(f, true, old(deeds), deeds)
      ensures !durable ==> Compensates(f, deeds.deleted, deeds.releasedBytes, true, old(deeds), deeds)
      ensures f.infected || f.byteReserve.Fails? ==> Compensates(f, false, false, true, old(deeds), deeds)
      ensures Present() && state.jobs[j] == Job(FileCreate, user, size, if durable then Landed else Failed)
      ensures durable ==> !f.infected && f.secretReserve.Works? && f.byteReserve.Works? && Uploads(f)
      ensures durable ==> j in state.landed
      ensures
        (&& !f.infected && f.secretReserve.Works? && f.byteReserve.Works? && Uploads(f)
         && AllGranted(start, trace, j) && user !in state.gone) ==> durable
      ensures durable && f.secretCommit.Happens() ==> !Holds(Secrets)
      ensures durable && f.secretCommit.Works? && f.byteCommit.Happens() ==> !Holds(Bytes)
      ensures
        (durable && !f.reconcile && !(f.secretCommit.Works? && f.byteCommit.Works?)) ==>
          DoReconcile(r) in trace[|old(trace)|..]
      ensures f.infected ==> j !in state.objects && !Holds(Bytes)
      ensures !durable && !f.objectDelete ==> j !in state.objects
      ensures !durable && !f.byteRelease && !f.byteReserve.Unheard? ==> !Holds(Bytes)
      ensures !durable && !f.secretRelease && !f.secretReserve.Unheard? ==> !Holds(Secrets)
    {
      hide Legal, Run, Apply, Enabled, AllGranted, Onward;
      ArriveNow(FileCreate, user, size);
      var granted, _ := ReserveNext(expiresAt, f.secretReserve);
      ghost var charged := trace;
      if !granted {
        return false;
      }
      durable := ScanAndUpload(expiresAt, f);
      Later(old(trace), charged, trace);
    }

    lemma GrantedBefore(a: seq<Step>)
      requires Valid() && a <= trace
      ensures Legal(start, a) && (AllGranted(start, trace, j) ==> AllGranted(start, a, j))
    {
      hide Legal, AllGranted;
      PrefixOnward(start, a, trace);
      if AllGranted(start, trace, j) {
        PrefixGranted(start, a, trace, j);
      }
    }

    /** update_file_secret. Without a fault it commits, if the reservation is granted and user and secret stay. */
    ghost method UpdateFile(secret: nat, user: UserId, size: nat, expiresAt: int, f: Faults) returns (durable: bool)
      requires Valid() && j !in state.jobs && r !in state.readers && Traceless(state, j)
      modifies this
      ensures old(trace) <= trace
      ensures durable ==> Settles(f, false, old(deeds), deeds)
      ensures !durable ==> Compensates(f, deeds.deleted, true, false, old(deeds), deeds)
      ensures f.refused || f.infected || f.byteReserve.Fails? ==> deeds == old(deeds)
      ensures Present() && state.jobs[j] == Job(FileUpdate(secret), user, size, if durable then Landed else Failed)
      ensures durable ==> !f.refused && !f.infected && f.byteReserve.Works? && Uploads(f) && j in state.landed
      ensures
        (&& !f.refused && !f.infected && f.byteReserve.Works? && Uploads(f)
         && AllGranted(start, trace, j) && user !in state.gone
         && old(Shape(state) && secret in state.secrets) && secret in state.secrets) ==> durable
      ensures durable && f.byteCommit.Happens() ==> !Holds(Bytes)
      ensures durable && !f.reconcile && !f.byteCommit.Works? ==> DoReconcile(r) in trace[|old(trace)|..]
      ensures f.refused || f.infected ==> Traceless(state, j)
      ensures !durable && !f.objectDelete ==> j !in state.objects
      ensures !durable && !f.byteRelease && !f.byteReserve.Unheard? ==> !Holds(Bytes)
    {
      hide Legal, Run, Apply, Enabled, AllGranted, Onward, Shape;
      ghost var before := state;
      ArriveNow(FileUpdate(secret), user, size);
      if f.refused || f.infected {
        FailNow();
        return false;
      }
      var granted, _ := ReserveNext(expiresAt, f.byteReserve);
      ghost var funded := trace;
      if !granted {
        return false;
      }
      durable := UploadAndSettle(f, false);
      Later(old(trace), funded, trace);
      if Shape(before) && secret in before.secrets {
        SecretIsOver(before, secret);
        StaysOver(old(trace), funded, secret);
      }
    }

    lemma StaysOver(a: seq<Step>, b: seq<Step>, k: nat)
      requires Valid() && a <= b <= trace && Legal(start, a)
      requires k in Run(start, a).jobs && !Run(start, a).jobs[k].Live()
      ensures Legal(start, b) && k in Run(start, b).jobs && !Run(start, b).jobs[k].Live()
    {
      hide Legal, Run;
      PrefixOnward(start, b, trace);
      PrefixOnward(start, a, b);
    }

    /** Since a handler's execution is a run, it keeps what runs keep. */
    lemma KeepsInvariants(k: nat)
      requires Valid() && Shape(start) && QuotaInv(start)
      ensures Shape(state) && QuotaInv(state)
      ensures KeyFits(start, k) && Untouched(start, trace, k) ==> KeyFits(state, k)
    {
      hide Shape, QuotaInv, KeyFits;
      QuotaOverRuns(start, trace);
      if KeyFits(start, k) && Untouched(start, trace, k) {
        ObjectsOverRuns(start, trace, k);
      }
    }
  }
}
