/** The life of one secret: views that use up its budget, policy and content updates, and the four ways its row goes
    away: the burn trigger, the expiry worker, the sweep and the owner, under expiring Redis locks. */
module Lifecycle {
  import opened Bytes

  const SECRET_LOCK_TTL: nat := 30
  const SWEEP_LOCK_TTL: nat := 120

  datatype Row = Row(views: nat, maxViews: nat, expiresAt: int, policy: nat, version: nat, isText: bool,
                     restricted: bool)

  /** A request to read: the policy version it was authorized under, and how far it got. A download first peeks
      without a lock and remembers the content version. A view counted at a time succeeded, and a download's peek before
      it passed at an earlier one. */
  datatype Phase =
    | Authorized
    | Peeked(version: nat, peek: int)
    | Succeeded(peekedAt: Option<int>, countedAt: int)
    | Refused(reason: Reason)

  datatype Viewer = Viewer(policy: nat, phase: Phase)

  datatype Reason =
    | NotFound
    | StalePolicy
    | Expired
    | Exhausted
    | WrongPayload
    | NotRecipient
    | BadPassword
    | CryptoFailed
    | Unrecorded
    | Changed

  /** What the caller brings: a listed verified e-mail, the right password, and a ciphertext that opens. */
  datatype Proof = Proof(recipient: bool, password: bool, opens: bool)

  /** The per-secret lock of the expiry worker, and the global lock of the sweep. */
  datatype Key = SecretKey | SweepKey

  datatype Lock = Lock(token: nat, until: int)

  datatype Stage = Locked | Removed(hit: bool) | Reported | Released

  /** One deletion by the expiry worker or the sweep, under the token it acquired. */
  datatype Worker = Worker(key: Key, token: nat, since: int, stage: Stage)

  /** The secret's row (None once removed), its tracking record with the rows of the view history, the lock keys, and
      the counts the properties speak of. */
  datatype State = State(
    now: int,
    row: Option<Row>,
    tracking: bool,
    history: nat,
    viewers: map<nat, Viewer>,
    locks: map<Key, Lock>,
    tokens: nat,
    workers: map<nat, Worker>,
    successes: nat,
    removals: nat,
    reports: nat,
    burned: bool)

  datatype Step =
    | Wait(seconds: nat)
    | Authorize(v: nat)
    | Retrieve(v: nat, proof: Proof)
    | Peek(v: nat, proof: Proof)
    | Consume(v: nat, proof: Proof)
    | UpdatePolicy
    | UpdateContent
    | Acquire(w: nat, key: Key)
    | Remove(w: nat)
    | Report(w: nat)
    | Release(w: nat)
    | OwnerDelete
    | ForgetHistory

  predicate IsView(step: Step) {
    step.Authorize? || step.Retrieve? || step.Peek? || step.Consume?
  }

  predicate IsWork(step: Step) {
    step.Acquire? || step.Remove? || step.Report? || step.Release?
  }

  // ---------- Views ----------

  /** Why the text retrieval refuses, in the order it checks; None when it counts a view. */
  function TextRefusal(s: State, policy: nat, proof: Proof): Option<Reason> {
    if s.row.None? then Some(NotFound)
    else
      var row := s.row.value;
      if row.policy != policy then Some(StalePolicy)
      else if row.expiresAt < s.now then Some(Expired)
      else if row.views >= row.maxViews then Some(Exhausted)
      else if !row.isText then Some(WrongPayload)
      else if row.restricted && !proof.recipient then Some(NotRecipient)
      else if !proof.password then Some(BadPassword)
      else if !proof.opens then Some(CryptoFailed)
      else if row.restricted && !s.tracking then Some(Unrecorded)
      else None
  }

  /** The download's first look, without a lock. */
  function PeekRefusal(s: State, policy: nat, proof: Proof): Option<Reason> {
    if s.row.None? || s.row.value.isText then Some(NotFound)
    else
      var row := s.row.value;
      if row.restricted && !proof.recipient then Some(NotRecipient)
      else if !proof.password then Some(BadPassword)
      else if row.policy != policy then Some(StalePolicy)
      else if row.expiresAt <= s.now || row.views >= row.maxViews then Some(Exhausted)
      else None
  }

  /** The download's second look, under the row lock; the expiry is not checked again. */
  function ConsumeRefusal(s: State, policy: nat, version: nat, proof: Proof): Option<Reason> {
    if s.row.None? || s.row.value.version != version then Some(Changed)
    else
      var row := s.row.value;
      if row.policy != policy then Some(StalePolicy)
      else if row.views >= row.maxViews then Some(Exhausted)
      else if !proof.opens then Some(CryptoFailed)
      else None
  }

  /** One counted view: a history row if tracking is kept, the new count, and the trigger that removes and reports the
      row when the count reaches the budget. */
  function Counted(s: State): State
    requires s.row.Some?
  {
    var row := s.row.value.(views := s.row.value.views + 1);
    var burns := row.views >= row.maxViews;
    s.(row := if burns then None else Some(row),
       history := s.history + if s.tracking then 1 else 0,
       successes := s.successes + 1,
       removals := s.removals + if burns then 1 else 0,
       reports := s.reports + if burns then 1 else 0,
       burned := s.burned || burns)
  }

  function Moved(s: State, v: nat, phase: Phase): State
    requires v in s.viewers
  {
    s.(viewers := s.viewers[v := s.viewers[v].(phase := phase)])
  }

  predicate Authorizing(s: State, v: nat) {
    v in s.viewers && s.viewers[v].phase.Authorized?
  }

  predicate Peeking(s: State, v: nat) {
    v in s.viewers && s.viewers[v].phase.Peeked?
  }

  function ViewStep(s: State, step: Step): State
    requires IsView(step)
  {
    match step
    case Authorize(v) =>
      if v in s.viewers || s.row.None? then s
      else s.(viewers := s.viewers[v := Viewer(s.row.value.policy, Authorized)])
    case Retrieve(v, proof) =>
      if !Authorizing(s, v) then s
      else
        match TextRefusal(s, s.viewers[v].policy, proof) {
          case Some(reason) => Moved(s, v, Refused(reason))
          case None => Moved(Counted(s), v, Succeeded(None, s.now))
        }
    case Peek(v, proof) =>
      if !Authorizing(s, v) then s
      else
        match PeekRefusal(s, s.viewers[v].policy, proof) {
          case Some(reason) => Moved(s, v, Refused(reason))
          case None => Moved(s, v, Peeked(s.row.value.version, s.now))
        }
    case Consume(v, proof) =>
      if !Peeking(s, v) then s
      else
        match ConsumeRefusal(s, s.viewers[v].policy, s.viewers[v].phase.version, proof) {
          case Some(reason) => Moved(s, v, Refused(reason))
          case None => Moved(Counted(s), v, Succeeded(Some(s.viewers[v].phase.peek), s.now))
        }
  }

  // ---------- Locks and removals ----------

  function Ttl(key: Key): nat {
    if key.SecretKey? then SECRET_LOCK_TTL else SWEEP_LOCK_TTL
  }

  predicate Free(locks: map<Key, Lock>, key: Key, now: int) {
    key in locks ==> locks[key].until <= now
  }

  /** The expiry worker deletes by id; the sweep deletes what has expired or is used up. */
  predicate Hits(s: State, key: Key) {
    s.row.Some? && (key.SecretKey? || s.row.value.expiresAt < s.now || s.row.value.views >= s.row.value.maxViews)
  }

  function Staged(s: State, w: nat, stage: Stage): State
    requires w in s.workers
  {
    s.(workers := s.workers[w := s.workers[w].(stage := stage)])
  }

  function WorkStep(s: State, step: Step): State
    requires IsWork(step)
  {
    match step
    case Acquire(w, key) =>
      if w in s.workers then s
      else if !Free(s.locks, key, s.now) then s.(tokens := s.tokens + 1)
      else
        s.(tokens := s.tokens + 1,
           locks := s.locks[key := Lock(s.tokens, s.now + Ttl(key))],
           workers := s.workers[w := Worker(key, s.tokens, s.now, Locked)])
    case Remove(w) =>
      if w !in s.workers || !s.workers[w].stage.Locked? then s
      else if Hits(s, s.workers[w].key) then Staged(s, w, Removed(true)).(row := None, removals := s.removals + 1)
      else Staged(s, w, Removed(false))
    case Report(w) =>
      if w !in s.workers || !s.workers[w].stage.Removed? then s
      else Staged(s, w, Reported).(reports := s.reports + if s.workers[w].stage.hit then 1 else 0)
    case Release(w) =>
      if w !in s.workers || s.workers[w].stage.Released? then s
      else Staged(s, w, Released).(locks := ReleasedLocks(s.locks, s.workers[w].key, s.workers[w].token, s.now))
  }

  /** Compare and delete: an expired key is gone already. */
  function ReleasedLocks(locks: map<Key, Lock>, key: Key, token: nat, now: int): map<Key, Lock> {
    if !Free(locks, key, now) && locks[key].token == token then locks - {key} else locks
  }

  function Next(s: State, step: Step): State {
    match step
    case Wait(seconds) => s.(now := s.now + seconds)
    case Authorize(_) => ViewStep(s, step)
    case Retrieve(_, _) => ViewStep(s, step)
    case Peek(_, _) => ViewStep(s, step)
    case Consume(_, _) => ViewStep(s, step)
    case UpdatePolicy =>
      if s.row.None? then s else s.(row := Some(s.row.value.(policy := s.row.value.policy + 1)))
    case UpdateContent =>
      if s.row.None? then s else s.(row := Some(s.row.value.(version := s.row.value.version + 1)))
    case Acquire(_, _) => WorkStep(s, step)
    case Remove(_) => WorkStep(s, step)
    case Report(_) => WorkStep(s, step)
    case Release(_) => WorkStep(s, step)
    case OwnerDelete =>
      if s.row.None? then s else s.(row := None, removals := s.removals + 1, reports := s.reports + 1)
    case ForgetHistory => s.(tracking := false, history := 0)
  }

  function RunAll(s: State, steps: seq<Step>): State
    decreases |steps|
  {
    if steps == [] then s else RunAll(Next(s, steps[0]), steps[1..])
  }

  function Created(now: int, maxViews: nat, expiresAt: int, isText: bool, restricted: bool): State {
    State(now, Some(Row(0, maxViews, expiresAt, 1, 1, isText, restricted)), true, 0,
          map[], map[], 0, map[], 0, 0, 0, false)
  }

  // ---------- Invariants ----------

  /** The row counts the successes and exists while they are below the budget; it is removed once. */
  ghost predicate WithinBudget(s: State, budget: nat) {
    && s.successes <= budget
    && (s.row.Some? ==> s.row.value.maxViews == budget && s.row.value.views == s.successes < budget && s.removals == 0)
    && (s.row.None? ==> s.removals == 1)
    && (s.burned <==> s.successes == budget)
    && (s.burned ==> s.row.None?)
  }

  ghost predicate HistoryFits(s: State) {
    s.history == if s.tracking then s.successes else 0
  }

  /** At most one worker removed the row and has yet to report it, and then nobody else reported it. */
  ghost predicate ReportsFit(workers: map<nat, Worker>, removals: nat, reports: nat) {
    && reports <= removals
    && (forall w :: w in workers && workers[w].stage == Removed(true) ==> reports < removals)
    && (forall w, x :: w in workers && workers[w].stage == Removed(true)
          && x in workers && workers[x].stage == Removed(true)
          ==> w == x)
  }

  predicate InSection(stage: Stage) {
    !stage.Released?
  }

  /** A worker whose time has not run out owns the lock of its key. */
  ghost predicate WorkerFits(w: Worker, locks: map<Key, Lock>, tokens: nat, now: int) {
    && w.token < tokens && w.since <= now
    && (InSection(w.stage) && now < w.since + Ttl(w.key) ==>
          w.key in locks && locks[w.key] == Lock(w.token, w.since + Ttl(w.key)))
  }

  ghost predicate LocksFit(workers: map<nat, Worker>, locks: map<Key, Lock>, tokens: nat, now: int) {
    && (forall key :: key in locks ==> locks[key].token < tokens)
    && (forall w :: w in workers ==> WorkerFits(workers[w], locks, tokens, now))
    && (forall w, x :: w in workers && x in workers && w != x ==> workers[w].token != workers[x].token)
  }

  ghost predicate ViewersFit(viewers: map<nat, Viewer>, row: Option<Row>) {
    row.Some? ==> forall v :: v in viewers ==> viewers[v].policy <= row.value.policy
  }

  ghost predicate Good(s: State, budget: nat) {
    && WithinBudget(s, budget)
    && HistoryFits(s)
    && ReportsFit(s.workers, s.removals, s.reports)
    && LocksFit(s.workers, s.locks, s.tokens, s.now)
    && ViewersFit(s.viewers, s.row)
  }

  // ---------- Proofs ----------

  lemma CountedKeeps(s: State, budget: nat)
    requires WithinBudget(s, budget) && HistoryFits(s) && ReportsFit(s.workers, s.removals, s.reports) && s.row.Some?
    ensures
      var s' := Counted(s);
      WithinBudget(s', budget) && HistoryFits(s') && ReportsFit(s'.workers, s'.removals, s'.reports)
  {
  }

  lemma ViewKeepsGood(s: State, budget: nat, step: Step)
    requires Good(s, budget) && IsView(step)
    ensures Good(Next(s, step), budget)
  {
    hide LocksFit, Counted, ReportsFit;
    if s.row.Some? {
      CountedKeeps(s, budget);
      CountedLeaves(s);
    }
  }

  lemma CountedLeaves(s: State)
    requires s.row.Some?
    ensures
      var s' := Counted(s);
      && s' == s.(row := s'.row, history := s'.history, successes := s'.successes, removals := s'.removals,
                  reports := s'.reports, burned := s'.burned)
      && (s'.row.Some? ==> s'.row.value == s.row.value.(views := s.row.value.views + 1))
  {
  }

  lemma NewWorkerFits(workers: map<nat, Worker>, w: nat, key: Key, locks: map<Key, Lock>, tokens: nat, now: int)
    requires LocksFit(workers, locks, tokens, now) && w !in workers && Free(locks, key, now)
    ensures
      LocksFit(workers[w := Worker(key, tokens, now, Locked)], locks[key := Lock(tokens, now + Ttl(key))],
               tokens + 1, now)
  {
    var workers' := workers[w := Worker(key, tokens, now, Locked)];
    var locks' := locks[key := Lock(tokens, now + Ttl(key))];
    forall x | x in workers' ensures WorkerFits(workers'[x], locks', tokens + 1, now) {
      assert x != w ==> WorkerFits(workers[x], locks, tokens, now);
    }
    forall x, y | x in workers' && y in workers' && x != y ensures workers'[x].token != workers'[y].token {
      assert x != w ==> WorkerFits(workers[x], locks, tokens, now);
      assert y != w ==> WorkerFits(workers[y], locks, tokens, now);
    }
  }

  lemma StagedFits(workers: map<nat, Worker>, w: nat, stage: Stage, locks: map<Key, Lock>, tokens: nat, now: int)
    requires LocksFit(workers, locks, tokens, now) && w in workers && (InSection(workers[w].stage) || stage.Released?)
    ensures LocksFit(workers[w := workers[w].(stage := stage)], locks, tokens, now)
  {
    var workers' := workers[w := workers[w].(stage := stage)];
    forall x | x in workers' ensures WorkerFits(workers'[x], locks, tokens, now) {
      assert WorkerFits(workers[x], locks, tokens, now);
    }
  }

  /** A release removes the lock only if the token is still its own, so no other worker loses its lock. */
  lemma ReleaseFits(workers: map<nat, Worker>, w: nat, locks: map<Key, Lock>, tokens: nat, now: int)
    requires LocksFit(workers, locks, tokens, now) && w in workers && workers[w].stage.Released?
    ensures LocksFit(workers, ReleasedLocks(locks, workers[w].key, workers[w].token, now), tokens, now)
  {
    var locks' := ReleasedLocks(locks, workers[w].key, workers[w].token, now);
    forall x | x in workers ensures WorkerFits(workers[x], locks', tokens, now) {
      assert WorkerFits(workers[x], locks, tokens, now);
      assert x != w ==> workers[x].token != workers[w].token;
    }
  }

  lemma MoreTokensFit(workers: map<nat, Worker>, locks: map<Key, Lock>, tokens: nat, now: int)
    requires LocksFit(workers, locks, tokens, now)
    ensures LocksFit(workers, locks, tokens + 1, now)
  {
    forall x | x in workers ensures WorkerFits(workers[x], locks, tokens + 1, now) {
      assert WorkerFits(workers[x], locks, tokens, now);
    }
  }

  lemma WorkKeepsLocks(s: State, step: Step)
    requires LocksFit(s.workers, s.locks, s.tokens, s.now)
    requires IsWork(step)
    ensures var s' := WorkStep(s, step); LocksFit(s'.workers, s'.locks, s'.tokens, s'.now)
  {
    hide LocksFit, Hits, Free, Ttl, ReleasedLocks;
    match step
    case Acquire(w, key) =>
      if w !in s.workers {
        if Free(s.locks, key, s.now) {
          NewWorkerFits(s.workers, w, key, s.locks, s.tokens, s.now);
        } else {
          MoreTokensFit(s.workers, s.locks, s.tokens, s.now);
        }
      }
    case Remove(w) =>
      if w in s.workers && s.workers[w].stage.Locked? {
        StagedFits(s.workers, w, Removed(Hits(s, s.workers[w].key)), s.locks, s.tokens, s.now);
      }
    case Report(w) =>
      if w in s.workers && s.workers[w].stage.Removed? {
        StagedFits(s.workers, w, Reported, s.locks, s.tokens, s.now);
      }
    case Release(w) =>
      if w in s.workers && !s.workers[w].stage.Released? {
        StagedFits(s.workers, w, Released, s.locks, s.tokens, s.now);
        ReleaseFits(Staged(s, w, Released).workers, w, s.locks, s.tokens, s.now);
      }
  }

  lemma WorkKeepsReports(s: State, step: Step)
    requires ReportsFit(s.workers, s.removals, s.reports) && (s.row.Some? ==> s.removals == 0) && s.removals <= 1
    requires IsWork(step)
    ensures var s' := WorkStep(s, step); ReportsFit(s'.workers, s'.removals, s'.reports)
  {
    hide ReleasedLocks, Free, ReportsFit;
    match step
    case Acquire(w, key) =>
      if w !in s.workers {
        OtherStage(s.workers, s.removals, s.reports, w, Worker(key, s.tokens, s.now, Locked));
      }
    case Remove(w) =>
      if w in s.workers && s.workers[w].stage.Locked? {
        if Hits(s, s.workers[w].key) {
          FirstRemoval(s.workers, s.removals, s.reports, w);
        } else {
          OtherStage(s.workers, s.removals, s.reports, w, s.workers[w].(stage := Removed(false)));
        }
      }
    case Report(w) =>
      if w in s.workers && s.workers[w].stage.Removed? {
        Reporting(s.workers, s.removals, s.reports, w);
      }
    case Release(w) =>
      if w in s.workers {
        OtherStage(s.workers, s.removals, s.reports, w, s.workers[w].(stage := Released));
      }
  }

  lemma OtherStage(workers: map<nat, Worker>, removals: nat, reports: nat, w: nat, worker: Worker)
    requires ReportsFit(workers, removals, reports) && worker.stage != Removed(true)
    ensures ReportsFit(workers[w := worker], removals, reports)
  {
  }

  lemma FirstRemoval(workers: map<nat, Worker>, removals: nat, reports: nat, w: nat)
    requires ReportsFit(workers, removals, reports) && w in workers && removals == 0
    ensures ReportsFit(workers[w := workers[w].(stage := Removed(true))], 1, reports)
  {
  }

  lemma Reporting(workers: map<nat, Worker>, removals: nat, reports: nat, w: nat)
    requires ReportsFit(workers, removals, reports) && w in workers && workers[w].stage.Removed?
    ensures
      ReportsFit(workers[w := workers[w].(stage := Reported)], removals,
                 reports + if workers[w].stage.hit then 1 else 0)
  {
  }

  lemma WorkKeepsGood(s: State, budget: nat, step: Step)
    requires Good(s, budget) && IsWork(step)
    ensures Good(Next(s, step), budget)
  {
    hide ReportsFit, LocksFit, ReleasedLocks;
    WorkKeepsLocks(s, step);
    WorkKeepsReports(s, step);
  }

  lemma WaitKeepsLocks(s: State, seconds: nat)
    requires LocksFit(s.workers, s.locks, s.tokens, s.now)
    ensures LocksFit(s.workers, s.locks, s.tokens, s.now + seconds)
  {
    forall x | x in s.workers ensures WorkerFits(s.workers[x], s.locks, s.tokens, s.now + seconds) {
      assert WorkerFits(s.workers[x], s.locks, s.tokens, s.now);
    }
  }

  lemma StepKeepsGood(s: State, budget: nat, step: Step)
    requires Good(s, budget)
    ensures Good(Next(s, step), budget)
  {
    hide ViewStep, WorkStep, LocksFit;
    match step
    case Wait(seconds) => WaitKeepsLocks(s, seconds);
    case Authorize(_) => ViewKeepsGood(s, budget, step);
    case Retrieve(_, _) => ViewKeepsGood(s, budget, step);
    case Peek(_, _) => ViewKeepsGood(s, budget, step);
    case Consume(_, _) => ViewKeepsGood(s, budget, step);
    case Acquire(_, _) => WorkKeepsGood(s, budget, step);
    case Remove(_) => WorkKeepsGood(s, budget, step);
    case Report(_) => WorkKeepsGood(s, budget, step);
    case Release(_) => WorkKeepsGood(s, budget, step);
    case _ =>
  }

  lemma {:induction false} GoodOverRuns(s: State, budget: nat, steps: seq<Step>)
    requires Good(s, budget)
    ensures Good(RunAll(s, steps), budget)
    decreases |steps|
  {
    hide Good, Next;
    if steps != [] {
      StepKeepsGood(s, budget, steps[0]);
      GoodOverRuns(Next(s, steps[0]), budget, steps[1..]);
    }
  }

  lemma CreatedIsGood(now: int, maxViews: nat, expiresAt: int, isText: bool, restricted: bool)
    requires maxViews >= 1
    ensures Good(Created(now, maxViews, expiresAt, isText, restricted), maxViews)
  {
  }

  // ---------- What runs guarantee ----------

  /** Over every interleaving: never more successes than the budget, the row counts exactly the successes, it burns
      exactly at the last one, and the history has a row for each success while tracking is kept. */
  lemma BudgetHolds(now: int, maxViews: nat, expiresAt: int, isText: bool, restricted: bool, steps: seq<Step>)
    requires maxViews >= 1
    ensures
      var s := RunAll(Created(now, maxViews, expiresAt, isText, restricted), steps);
      && s.successes <= maxViews
      && (s.row.Some? ==> s.row.value.views == s.successes < maxViews)
      && (s.burned <==> s.successes == maxViews)
      && (s.tracking ==> s.history == s.successes)
  {
    hide LocksFit, ReportsFit, ViewersFit;
    CreatedIsGood(now, maxViews, expiresAt, isText, restricted);
    GoodOverRuns(Created(now, maxViews, expiresAt, isText, restricted), maxViews, steps);
  }

  /** The row goes away once, and whoever removes it, at most one of trigger, worker, sweep and owner reports it, even
      when locks run out in the middle of a deletion. */
  lemma RemovedAndReportedOnce(now: int, maxViews: nat, expiresAt: int, isText: bool, restricted: bool,
                               steps: seq<Step>)
    requires maxViews >= 1
    ensures
      var s := RunAll(Created(now, maxViews, expiresAt, isText, restricted), steps);
      s.reports <= s.removals == (if s.row.Some? then 0 else 1)
  {
    hide LocksFit, HistoryFits, ViewersFit;
    CreatedIsGood(now, maxViews, expiresAt, isText, restricted);
    GoodOverRuns(Created(now, maxViews, expiresAt, isText, restricted), maxViews, steps);
  }

  /** Two workers are inside the section of one lock only if the time of at least one of them has run out. */
  lemma OneOwner(now: int, maxViews: nat, expiresAt: int, isText: bool, restricted: bool, steps: seq<Step>, w: nat,
                 x: nat)
    requires maxViews >= 1
    requires
      var s := RunAll(Created(now, maxViews, expiresAt, isText, restricted), steps);
      && w in s.workers && x in s.workers && w != x && s.workers[w].key == s.workers[x].key
      && InSection(s.workers[w].stage) && InSection(s.workers[x].stage)
    ensures
      var s := RunAll(Created(now, maxViews, expiresAt, isText, restricted), steps);
      var ttl := Ttl(s.workers[w].key);
      s.workers[w].since + ttl <= s.now || s.workers[x].since + ttl <= s.now
  {
    hide ReportsFit, HistoryFits, ViewersFit, WithinBudget, Ttl;
    CreatedIsGood(now, maxViews, expiresAt, isText, restricted);
    GoodOverRuns(Created(now, maxViews, expiresAt, isText, restricted), maxViews, steps);
    var s := RunAll(Created(now, maxViews, expiresAt, isText, restricted), steps);
    assert WorkerFits(s.workers[w], s.locks, s.tokens, s.now) && WorkerFits(s.workers[x], s.locks, s.tokens, s.now);
  }

  /** A worker that still has time keeps its lock whatever another worker does, in particular when one whose time ran
      out releases late. */
  lemma LockSurvivesOthers(now: int, maxViews: nat, expiresAt: int, isText: bool, restricted: bool, steps: seq<Step>,
                           w: nat, step: Step)
    requires maxViews >= 1
    requires
      var s := RunAll(Created(now, maxViews, expiresAt, isText, restricted), steps);
      var s' := Next(s, step);
      && w in s.workers && InSection(s.workers[w].stage) && step != Release(w)
      && s'.now < s.workers[w].since + Ttl(s.workers[w].key)
    ensures
      var s := RunAll(Created(now, maxViews, expiresAt, isText, restricted), steps);
      var s' := Next(s, step);
      var worker := s.workers[w];
      worker.key in s'.locks && s'.locks[worker.key] == Lock(worker.token, worker.since + Ttl(worker.key))
  {
    hide ReportsFit, HistoryFits, ViewersFit, WithinBudget, Ttl, ViewStep, Hits;
    var s0 := Created(now, maxViews, expiresAt, isText, restricted);
    CreatedIsGood(now, maxViews, expiresAt, isText, restricted);
    GoodOverRuns(s0, maxViews, steps);
    var s := RunAll(s0, steps);
    StepKeepsGood(s, maxViews, step);
    var s' := Next(s, step);
    OthersKeepWorker(s, step, w);
    assert WorkerFits(s'.workers[w], s'.locks, s'.tokens, s'.now);
  }

  lemma OthersKeepWorker(s: State, step: Step, w: nat)
    requires w in s.workers && InSection(s.workers[w].stage) && step != Release(w)
    ensures
      var s' := Next(s, step);
      w in s'.workers && InSection(s'.workers[w].stage) && s'.workers[w].(stage := s.workers[w].stage) == s.workers[w]
  {
    hide ViewStep, ReleasedLocks, Hits, Free;
    if IsView(step) {
      ViewLeavesWorkers(s, step);
    }
  }

  lemma ViewLeavesWorkers(s: State, step: Step)
    requires IsView(step)
    ensures ViewStep(s, step).workers == s.workers
  {
    hide TextRefusal, PeekRefusal, ConsumeRefusal;
  }

  /** Policy versions only grow, so a reader authorized before a policy update never succeeds after it. */
  lemma {:induction false} UpdateShutsOutEarlierReaders(s: State, budget: nat, v: nat, steps: seq<Step>)
    requires Good(s, budget) && v in s.viewers && !s.viewers[v].phase.Succeeded?
    requires s.row.Some? ==> s.viewers[v].policy < s.row.value.policy
    ensures v in RunAll(s, steps).viewers && !RunAll(s, steps).viewers[v].phase.Succeeded?
    decreases |steps|
  {
    hide Good, Next;
    if steps != [] {
      StaleReaderStays(s, v, steps[0]);
      StepKeepsGood(s, budget, steps[0]);
      UpdateShutsOutEarlierReaders(Next(s, steps[0]), budget, v, steps[1..]);
    }
  }

  /** So an update shuts out for good whoever was authorized before it and has not succeeded yet. */
  lemma PolicyUpdateShutsOut(s: State, budget: nat, v: nat, after: seq<Step>)
    requires Good(s, budget) && v in s.viewers && !s.viewers[v].phase.Succeeded?
    ensures
      var s' := RunAll(s, [UpdatePolicy] + after);
      v in s'.viewers && !s'.viewers[v].phase.Succeeded?
  {
    hide RunAll, LocksFit, ReportsFit, WithinBudget, HistoryFits;
    StepKeepsGood(s, budget, UpdatePolicy);
    RunFirst(s, UpdatePolicy, after);
    UpdateShutsOutEarlierReaders(Next(s, UpdatePolicy), budget, v, after);
  }

  lemma RunFirst(s: State, step: Step, after: seq<Step>)
    ensures RunAll(s, [step] + after) == RunAll(Next(s, step), after)
  {
    hide Next;
    assert ([step] + after)[1..] == after;
  }

  function Times(steps: seq<Step>, step: Step): nat
    decreases |steps|
  {
    if steps == [] then 0 else Times(steps[1..], step) + if steps[0] == step then 1 else 0
  }

  lemma {:induction false} VersionsCountFrom(s: State, steps: seq<Step>)
    ensures
      var row := RunAll(s, steps).row;
      row.Some? ==>
        && s.row.Some? && row.value.policy == s.row.value.policy + Times(steps, UpdatePolicy)
        && row.value.version == s.row.value.version + Times(steps, UpdateContent)
    decreases |steps|
  {
    hide Next;
    if steps != [] {
      VersionsCountStep(s, steps[0]);
      VersionsCountFrom(Next(s, steps[0]), steps[1..]);
    }
  }

  lemma VersionsCountStep(s: State, step: Step)
    ensures
      var row := Next(s, step).row;
      row.Some? ==>
        && s.row.Some?
        && row.value.policy == s.row.value.policy + (if step == UpdatePolicy then 1 else 0)
        && row.value.version == s.row.value.version + (if step == UpdateContent then 1 else 0)
  {
    hide ViewStep, WorkStep;
    if IsView(step) {
      ViewKeepsVersions(s, step);
    } else if IsWork(step) {
      WorkLeaves(s, step);
    }
  }

  lemma ViewKeepsVersions(s: State, step: Step)
    requires IsView(step)
    ensures
      var row := Next(s, step).row;
      row.Some? ==> s.row.Some? && row.value.policy == s.row.value.policy && row.value.version == s.row.value.version
  {
    hide Counted;
    if s.row.Some? {
      CountedLeaves(s);
    }
  }

  /** Policies and contents are numbered by their updates, from one. */
  lemma VersionsCount(now: int, maxViews: nat, expiresAt: int, isText: bool, restricted: bool, steps: seq<Step>)
    ensures
      var row := RunAll(Created(now, maxViews, expiresAt, isText, restricted), steps).row;
      row.Some? ==>
        && row.value.policy == 1 + Times(steps, UpdatePolicy)
        && row.value.version == 1 + Times(steps, UpdateContent)
  {
    hide RunAll;
    VersionsCountFrom(Created(now, maxViews, expiresAt, isText, restricted), steps);
  }

  /** A download that has seen an older content than the row has, or been refused, or whose row is gone, is not
      counted. */
  ghost predicate Outdated(s: State, v: nat) {
    && v in s.viewers
    && (s.viewers[v].phase.Refused?
        || (s.viewers[v].phase.Peeked? && (s.row.Some? ==> s.viewers[v].phase.version < s.row.value.version)))
  }

  lemma StepKeepsOutdated(s: State, v: nat, step: Step)
    requires Outdated(s, v)
    ensures Outdated(Next(s, step), v)
  {
    hide ViewStep, WorkStep;
    if IsView(step) {
      ViewKeepsOutdated(s, v, step);
    } else if IsWork(step) {
      WorkLeaves(s, step);
    }
  }

  lemma ViewKeepsOutdated(s: State, v: nat, step: Step)
    requires Outdated(s, v) && IsView(step)
    ensures Outdated(Next(s, step), v)
  {
    hide Counted;
    if s.row.Some? {
      CountedLeaves(s);
    }
  }

  lemma {:induction false} OutdatedOverRuns(s: State, v: nat, steps: seq<Step>)
    requires Outdated(s, v)
    ensures Outdated(RunAll(s, steps), v)
    decreases |steps|
  {
    hide Outdated, Next;
    if steps != [] {
      StepKeepsOutdated(s, v, steps[0]);
      OutdatedOverRuns(Next(s, steps[0]), v, steps[1..]);
    }
  }

  /** Nobody has seen a content that is still to come. */
  ghost predicate SeenFits(viewers: map<nat, Viewer>, row: Option<Row>) {
    row.Some? ==> forall v :: v in viewers && viewers[v].phase.Peeked? ==> viewers[v].phase.version <= row.value.version
  }

  lemma StepKeepsSeen(s: State, step: Step)
    requires SeenFits(s.viewers, s.row)
    ensures SeenFits(Next(s, step).viewers, Next(s, step).row)
  {
    hide ViewStep, WorkStep;
    if IsView(step) {
      ViewKeepsSeen(s, step);
    } else if IsWork(step) {
      WorkLeaves(s, step);
    }
  }

  lemma ViewKeepsSeen(s: State, step: Step)
    requires SeenFits(s.viewers, s.row) && IsView(step)
    ensures SeenFits(Next(s, step).viewers, Next(s, step).row)
  {
    hide Counted;
    if s.row.Some? {
      CountedLeaves(s);
    }
  }

  lemma {:induction false} SeenOverRuns(s: State, steps: seq<Step>)
    requires SeenFits(s.viewers, s.row)
    ensures SeenFits(RunAll(s, steps).viewers, RunAll(s, steps).row)
    decreases |steps|
  {
    hide SeenFits, Next;
    if steps != [] {
      StepKeepsSeen(s, steps[0]);
      SeenOverRuns(Next(s, steps[0]), steps[1..]);
    }
  }

  /** A download whose content is replaced between its two looks is never counted, whatever happens before and after
      the update. */
  lemma ContentUpdateShutsOut(now: int, maxViews: nat, expiresAt: int, isText: bool, restricted: bool,
                              before: seq<Step>, v: nat, after: seq<Step>)
    requires
      var s := RunAll(Created(now, maxViews, expiresAt, isText, restricted), before);
      Peeking(s, v)
    ensures
      var s := RunAll(Created(now, maxViews, expiresAt, isText, restricted), before);
      var s' := RunAll(s, [UpdateContent] + after);
      v in s'.viewers && !s'.viewers[v].phase.Succeeded?
  {
    hide RunAll;
    var s0 := Created(now, maxViews, expiresAt, isText, restricted);
    var s := RunAll(s0, before);
    SeenOverRuns(s0, before);
    RunFirst(s, UpdateContent, after);
    OutdatedOverRuns(Next(s, UpdateContent), v, after);
  }

  lemma StaleReaderStays(s: State, v: nat, step: Step)
    requires v in s.viewers && !s.viewers[v].phase.Succeeded?
    requires s.row.Some? ==> s.viewers[v].policy < s.row.value.policy
    ensures
      var s' := Next(s, step);
      && v in s'.viewers && !s'.viewers[v].phase.Succeeded? && s'.viewers[v].policy == s.viewers[v].policy
      && (s'.row.Some? ==> s'.viewers[v].policy < s'.row.value.policy)
  {
    hide ViewStep, WorkStep;
    match step
    case Authorize(_) => StaleReaderIsRefused(s, v, step);
    case Retrieve(_, _) => StaleReaderIsRefused(s, v, step);
    case Peek(_, _) => StaleReaderIsRefused(s, v, step);
    case Consume(_, _) => StaleReaderIsRefused(s, v, step);
    case Acquire(_, _) => WorkLeaves(s, step);
    case Remove(_) => WorkLeaves(s, step);
    case Report(_) => WorkLeaves(s, step);
    case Release(_) => WorkLeaves(s, step);
    case _ =>
  }

  lemma StaleReaderIsRefused(s: State, v: nat, step: Step)
    requires v in s.viewers && !s.viewers[v].phase.Succeeded?
    requires s.row.Some? ==> s.viewers[v].policy < s.row.value.policy
    requires IsView(step)
    ensures
      var s' := ViewStep(s, step);
      && v in s'.viewers && !s'.viewers[v].phase.Succeeded? && s'.viewers[v].policy == s.viewers[v].policy
      && (s'.row.Some? ==> s'.viewers[v].policy < s'.row.value.policy)
  {
    hide Counted;
    if s.row.Some? {
      CountedLeaves(s);
    }
  }

  lemma WorkLeaves(s: State, step: Step)
    requires IsWork(step)
    ensures
      var s' := WorkStep(s, step); s'.viewers == s.viewers && s'.now == s.now && (s'.row.Some? ==> s'.row == s.row)
  {
    hide ReleasedLocks, Hits, Free;
  }

  /** A refused attempt changes nothing but the attempt itself; a successful one counts exactly one view. */
  lemma AttemptCountsOnce(s: State, budget: nat, v: nat, proof: Proof)
    requires Good(s, budget) && v in s.viewers
    ensures forall step :: step == Retrieve(v, proof) || step == Consume(v, proof) || step == Peek(v, proof) ==>
              var s' := Next(s, step);
              if s'.viewers[v].phase.Succeeded? && !s.viewers[v].phase.Succeeded?
              then s'.successes == s.successes + 1 && (s'.row.None? <==> s'.successes == budget)
              else s' == s.(viewers := s'.viewers)
  {
    hide LocksFit, ReportsFit, HistoryFits;
  }

  // ---------- Who is let in, and why others are not ----------

  datatype Check = Check(holds: bool, otherwise: Reason)

  /** The view is counted when every check holds; otherwise the first that does not gives the reason. */
  predicate Answers(phase: Phase, checks: seq<Check>) {
    match phase
    case Refused(reason) =>
      exists i :: 0 <= i < |checks| && checks[i] == Check(false, reason) && (forall j :: 0 <= j < i ==> checks[j].holds)
    case _ => forall i :: 0 <= i < |checks| ==> checks[i].holds
  }

  /** What a text retrieval asks of a row, in this order. */
  function TextChecks(row: Row, policy: nat, now: int, tracking: bool, proof: Proof): seq<Check> {
    [Check(policy == row.policy, StalePolicy),
     Check(now <= row.expiresAt, Expired),
     Check(row.views < row.maxViews, Exhausted),
     Check(row.isText, WrongPayload),
     Check(row.restricted ==> proof.recipient, NotRecipient),
     Check(proof.password, BadPassword),
     Check(proof.opens, CryptoFailed),
     Check(row.restricted ==> tracking, Unrecorded)]
  }

  function PeekChecks(row: Row, policy: nat, now: int, proof: Proof): seq<Check> {
    [Check(!row.isText, NotFound),
     Check(row.restricted ==> proof.recipient, NotRecipient),
     Check(proof.password, BadPassword),
     Check(policy == row.policy, StalePolicy),
     Check(now < row.expiresAt, Exhausted),
     Check(row.views < row.maxViews, Exhausted)]
  }

  function ConsumeChecks(row: Row, policy: nat, version: nat, proof: Proof): seq<Check> {
    [Check(version == row.version, Changed),
     Check(policy == row.policy, StalePolicy),
     Check(row.views < row.maxViews, Exhausted),
     Check(proof.opens, CryptoFailed)]
  }

  /** Authorization lets a new reader go on, for the policy the row has at that time. */
  lemma AuthorizesExactly(s: State, v: nat)
    requires v !in s.viewers
    ensures
      var s' := Next(s, Authorize(v));
      match s.row
      case None => s' == s
      case Some(row) => Authorizing(s', v) && s'.viewers[v].policy == row.policy && s' == s.(viewers := s'.viewers)
  {
  }

  lemma FirstFails(phase: Phase, checks: seq<Check>, i: nat)
    requires phase.Refused? && i < |checks| && checks[i] == Check(false, phase.reason)
    requires forall j :: 0 <= j < i ==> checks[j].holds
    ensures Answers(phase, checks)
  {
  }

  /** A text retrieval is answered by the checks on the row as it is, in their order. */
  lemma TextAnswers(s: State, v: nat, proof: Proof)
    requires Authorizing(s, v)
    ensures
      var phase := Next(s, Retrieve(v, proof)).viewers[v].phase;
      match s.row
      case None => phase == Refused(NotFound)
      case Some(row) =>
        Answers(phase, TextChecks(row, s.viewers[v].policy, s.now, s.tracking, proof))
        && (phase.Refused? || phase == Succeeded(None, s.now))
  {
    hide Counted, Answers;
    if s.row.Some? {
      CountedLeaves(s);
      TextChecksAnswer(s, s.viewers[v].policy, proof, Next(s, Retrieve(v, proof)).viewers[v].phase);
    }
  }

  lemma TextChecksAnswer(s: State, policy: nat, proof: Proof, phase: Phase)
    requires s.row.Some?
    requires match TextRefusal(s, policy, proof)
             case None => !phase.Refused?
             case Some(reason) => phase == Refused(reason)
    ensures Answers(phase, TextChecks(s.row.value, policy, s.now, s.tracking, proof))
  {
    var checks := TextChecks(s.row.value, policy, s.now, s.tracking, proof);
    if phase.Refused? {
      var i := if !checks[0].holds then 0 else if !checks[1].holds then 1 else if !checks[2].holds then 2
               else if !checks[3].holds then 3 else if !checks[4].holds then 4 else if !checks[5].holds then 5
               else if !checks[6].holds then 6 else 7;
      FirstFails(phase, checks, i);
    }
  }

  /** The first look of a download is answered the same way. */
  lemma PeekAnswers(s: State, v: nat, proof: Proof)
    requires Authorizing(s, v)
    ensures
      var phase := Next(s, Peek(v, proof)).viewers[v].phase;
      match s.row
      case None => phase == Refused(NotFound)
      case Some(row) =>
        Answers(phase, PeekChecks(row, s.viewers[v].policy, s.now, proof))
        && (phase.Refused? || phase == Peeked(row.version, s.now))
  {
    if s.row.Some? {
      var checks := PeekChecks(s.row.value, s.viewers[v].policy, s.now, proof);
      var phase := Next(s, Peek(v, proof)).viewers[v].phase;
      if phase.Refused? {
        var i := if !checks[0].holds then 0 else if !checks[1].holds then 1 else if !checks[2].holds then 2
                 else if !checks[3].holds then 3 else if !checks[4].holds then 4 else 5;
        FirstFails(phase, checks, i);
      }
    }
  }

  /** And so is its second look, under the row lock. */
  lemma ConsumeAnswers(s: State, v: nat, proof: Proof)
    requires Peeking(s, v)
    ensures
      var phase := Next(s, Consume(v, proof)).viewers[v].phase;
      var before := s.viewers[v];
      match s.row
      case None => phase == Refused(Changed)
      case Some(row) =>
        Answers(phase, ConsumeChecks(row, before.policy, before.phase.version, proof))
        && (phase.Refused? || phase == Succeeded(Some(before.phase.peek), s.now))
  {
    hide Counted;
    if s.row.Some? {
      CountedLeaves(s);
      var checks := ConsumeChecks(s.row.value, s.viewers[v].policy, s.viewers[v].phase.version, proof);
      var phase := Next(s, Consume(v, proof)).viewers[v].phase;
      if phase.Refused? {
        var i := if !checks[0].holds then 0 else if !checks[1].holds then 1 else if !checks[2].holds then 2 else 3;
        FirstFails(phase, checks, i);
      }
    }
  }

  /** A text view is counted exactly when its reader is authorized for the policy the row has now, the row has neither
      expired nor used up its views and is a text, the password is right, the ciphertext opens, and, for a restricted
      row, the reader is a recipient and the view can be recorded. */
  lemma TextCountsExactly(s: State, v: nat, proof: Proof)
    ensures
      Next(s, Retrieve(v, proof)).successes == s.successes + 1 <==>
        && Authorizing(s, v) && s.row.Some? && s.row.value.policy == s.viewers[v].policy
        && s.now <= s.row.value.expiresAt && s.row.value.views < s.row.value.maxViews && s.row.value.isText
        && (s.row.value.restricted ==> proof.recipient && s.tracking) && proof.password && proof.opens
  {
  }

  /** A download passes its first look exactly when a file row that has neither expired nor used up its views has the
      policy it was authorized for, the password is right, and the reader is a recipient if the row is restricted. */
  lemma PeekPassesExactly(s: State, v: nat, proof: Proof)
    requires Authorizing(s, v)
    ensures
      Next(s, Peek(v, proof)).viewers[v].phase.Peeked? <==>
        && s.row.Some? && !s.row.value.isText && s.row.value.policy == s.viewers[v].policy
        && s.now < s.row.value.expiresAt && s.row.value.views < s.row.value.maxViews
        && (s.row.value.restricted ==> proof.recipient) && proof.password
  {
  }

  /** A download is counted exactly when it has passed its first look and the row still has the same content and policy
      and views left, and its object opens. */
  lemma DownloadCountsExactly(s: State, v: nat, proof: Proof)
    ensures
      Next(s, Consume(v, proof)).successes == s.successes + 1 <==>
        && Peeking(s, v) && s.row.Some? && s.row.value.version == s.viewers[v].phase.version
        && s.row.value.policy == s.viewers[v].policy && s.row.value.views < s.row.value.maxViews && proof.opens
  {
  }

  // ---------- Removals, reports and locks, step by step ----------

  predicate Counts(s: State, step: Step) {
    Next(s, step).successes == s.successes + 1
  }

  /** A worker deletes if it is still before its deletion, and a sweep only what has expired or is used up. */
  predicate Removes(s: State, row: Row, w: nat) {
    && w in s.workers && s.workers[w].stage == Locked
    && (s.workers[w].key == SweepKey ==> row.expiresAt < s.now || row.maxViews <= row.views)
  }

  lemma CountedChanges(s: State)
    requires s.row.Some?
    ensures
      var s' := Counted(s);
      && s'.successes == s.successes + 1
      && (s'.row.None? <==> s.row.value.maxViews <= s.row.value.views + 1)
      && s'.reports == s.reports + if s'.row.None? then 1 else 0
  {
  }

  /** A view that is counted burns the row exactly with the last; one that is not leaves row and reports alone. */
  lemma ViewChanges(s: State, step: Step)
    requires IsView(step)
    ensures
      var s' := Next(s, step);
      if Counts(s, step)
      then && s.row.Some? && (s'.row.None? <==> s.row.value.maxViews <= s.row.value.views + 1)
           && s'.reports == s.reports + if s'.row.None? then 1 else 0
      else s'.row == s.row && s'.reports == s.reports
  {
    hide Counted;
    if s.row.Some? {
      CountedChanges(s);
    }
  }

  /** The row goes exactly when its owner deletes it, its last view is counted, an expiry worker deletes it, or a sweep
      deletes it after its expiry or with its views used up. */
  lemma RemovalExactly(s: State, step: Step)
    requires s.row.Some?
    ensures
      var row := s.row.value;
      Next(s, step).row.None? <==>
        || step.OwnerDelete?
        || (Counts(s, step) && row.maxViews <= row.views + 1)
        || (step.Remove? && Removes(s, row, step.w))
  {
    hide Free, ReleasedLocks, ViewStep;
    if IsView(step) {
      ViewChanges(s, step);
    }
  }

  /** From creation on, a sweep leaves every secret alone that has not expired and has views left. */
  lemma SweepSparesTheLiving(now: int, maxViews: nat, expiresAt: int, isText: bool, restricted: bool, steps: seq<Step>,
                             w: nat)
    requires maxViews >= 1
    requires
      var s := RunAll(Created(now, maxViews, expiresAt, isText, restricted), steps);
      s.now <= expiresAt && s.successes < maxViews && w in s.workers && s.workers[w].key == SweepKey
    ensures
      var s := RunAll(Created(now, maxViews, expiresAt, isText, restricted), steps);
      Next(s, Remove(w)).row == s.row
  {
    hide RunAll, Created, LocksFit, ReportsFit, HistoryFits, ViewersFit;
    CreatedIsGood(now, maxViews, expiresAt, isText, restricted);
    GoodOverRuns(Created(now, maxViews, expiresAt, isText, restricted), maxViews, steps);
    TimeOverCreated(now, maxViews, expiresAt, isText, restricted, steps);
  }

  /** And removes every one that has expired. */
  lemma SweepTakesTheExpired(now: int, maxViews: nat, expiresAt: int, isText: bool, restricted: bool,
                             steps: seq<Step>, w: nat)
    requires
      var s := RunAll(Created(now, maxViews, expiresAt, isText, restricted), steps);
      expiresAt < s.now && w in s.workers && s.workers[w].stage == Locked
    ensures
      var s := RunAll(Created(now, maxViews, expiresAt, isText, restricted), steps);
      Next(s, Remove(w)).row == None
  {
    hide RunAll, Created;
    TimeOverCreated(now, maxViews, expiresAt, isText, restricted, steps);
  }

  /** A removal is reported by the trigger or the owner at once, and by a worker that did remove the row in a step of
      its own. */
  lemma ReportsExactly(s: State, step: Step)
    ensures
      var row := s.row;
      Next(s, step).reports
      == s.reports
         + if || (row.Some? && step.OwnerDelete?)
              || (row.Some? && Counts(s, step) && row.value.maxViews <= row.value.views + 1)
              || (step.Report? && step.w in s.workers && s.workers[step.w].stage == Removed(true))
           then 1 else 0
  {
    hide Free, ReleasedLocks, Hits, ViewStep;
    if IsView(step) {
      ViewChanges(s, step);
    }
  }

  /** A worker enters exactly when it is new and nobody holds its key, and then holds the key for its time. */
  lemma AcquireExactly(s: State, w: nat, key: Key)
    requires w !in s.workers
    ensures
      var s' := Next(s, Acquire(w, key));
      if key !in s.locks || s.locks[key].until <= s.now
      then && w in s'.workers && s'.workers[w].stage == Locked && s'.workers[w].key == key
           && key in s'.locks && s'.locks[key] == Lock(s'.workers[w].token, s.now + Ttl(key))
      else s' == s.(tokens := s.tokens + 1)
  {
  }

  ghost predicate LocksLapse(locks: map<Key, Lock>, now: int) {
    forall key :: key in locks ==> locks[key].until <= now + Ttl(key)
  }

  lemma StepKeepsLapse(s: State, step: Step)
    requires LocksLapse(s.locks, s.now)
    ensures LocksLapse(Next(s, step).locks, Next(s, step).now)
  {
    hide ViewStep, Hits, Free;
    if IsView(step) {
      ViewLeavesLocks(s, step);
    }
  }

  lemma ViewLeavesLocks(s: State, step: Step)
    requires IsView(step)
    ensures ViewStep(s, step).locks == s.locks && ViewStep(s, step).now == s.now
  {
    hide TextRefusal, PeekRefusal, ConsumeRefusal;
  }

  lemma {:induction false} LapseOverRuns(s: State, steps: seq<Step>)
    requires LocksLapse(s.locks, s.now)
    ensures LocksLapse(RunAll(s, steps).locks, RunAll(s, steps).now)
    decreases |steps|
  {
    hide LocksLapse, Next;
    if steps != [] {
      StepKeepsLapse(s, steps[0]);
      LapseOverRuns(Next(s, steps[0]), steps[1..]);
    }
  }

  /** No lock outlasts its time: whatever happened, and whoever crashed, a new worker that waits for as long as the lock
      lasts gets it. */
  lemma LockLapses(now: int, maxViews: nat, expiresAt: int, isText: bool, restricted: bool, steps: seq<Step>, w: nat,
                   key: Key)
    ensures
      var s := RunAll(Created(now, maxViews, expiresAt, isText, restricted), steps);
      var s' := Next(Next(s, Wait(Ttl(key))), Acquire(w, key));
      w !in s.workers ==> w in s'.workers && s'.workers[w].stage == Locked && s'.workers[w].key == key
  {
    hide RunAll, Ttl, Next, WorkStep;
    LapseOverRuns(Created(now, maxViews, expiresAt, isText, restricted), steps);
    var s := RunAll(Created(now, maxViews, expiresAt, isText, restricted), steps);
    if w !in s.workers {
      WaitsOnly(s, Ttl(key));
      AcquireExactly(Next(s, Wait(Ttl(key))), w, key);
    }
  }

  lemma WaitsOnly(s: State, seconds: nat)
    ensures Next(s, Wait(seconds)) == s.(now := s.now + seconds)
  {
  }

  /** A worker that releases in time lets the next one in at once. */
  lemma ReleaseLetsIn(now: int, maxViews: nat, expiresAt: int, isText: bool, restricted: bool, steps: seq<Step>,
                      w: nat, x: nat)
    requires maxViews >= 1
    requires
      var s := RunAll(Created(now, maxViews, expiresAt, isText, restricted), steps);
      && w in s.workers && InSection(s.workers[w].stage) && s.now < s.workers[w].since + Ttl(s.workers[w].key)
      && x !in s.workers
    ensures
      var s := RunAll(Created(now, maxViews, expiresAt, isText, restricted), steps);
      var s' := Next(Next(s, Release(w)), Acquire(x, s.workers[w].key));
      x in s'.workers && s'.workers[x].stage == Locked
  {
    hide RunAll, Ttl, WithinBudget, ReportsFit, HistoryFits, ViewersFit;
    CreatedIsGood(now, maxViews, expiresAt, isText, restricted);
    GoodOverRuns(Created(now, maxViews, expiresAt, isText, restricted), maxViews, steps);
    var s := RunAll(Created(now, maxViews, expiresAt, isText, restricted), steps);
    assert WorkerFits(s.workers[w], s.locks, s.tokens, s.now);
    AcquireExactly(Next(s, Release(w)), x, s.workers[w].key);
  }

  // ---------- Expiry ----------

  /** A text view is counted no later than the expiry; of a download, only the peek comes before it. */
  predicate PhaseInTime(phase: Phase, expiresAt: int, now: int) {
    match phase
    case Peeked(_, peek) => peek < expiresAt && peek <= now
    case Succeeded(None, at) => at <= expiresAt && at <= now
    case Succeeded(Some(peek), at) => peek < expiresAt && peek <= at <= now
    case _ => true
  }

  ghost predicate InTime(s: State, expiresAt: int) {
    && (s.row.Some? ==> s.row.value.expiresAt == expiresAt)
    && (forall v :: v in s.viewers ==> PhaseInTime(s.viewers[v].phase, expiresAt, s.now))
  }

  /** What passes its checks has a row, and is in time where the expiry is checked. */
  lemma PassedInTime(s: State, policy: nat, version: nat, proof: Proof)
    ensures TextRefusal(s, policy, proof).None? ==> s.row.Some? && s.now <= s.row.value.expiresAt
    ensures PeekRefusal(s, policy, proof).None? ==> s.row.Some? && s.now < s.row.value.expiresAt
    ensures ConsumeRefusal(s, policy, version, proof).None? ==> s.row.Some?
  {
  }

  lemma ViewKeepsTime(s: State, expiresAt: int, step: Step)
    requires InTime(s, expiresAt) && IsView(step)
    ensures InTime(Next(s, step), expiresAt)
  {
    hide Counted, TextRefusal, PeekRefusal, ConsumeRefusal;
    if s.row.Some? {
      CountedLeaves(s);
    }
    if step.v in s.viewers && !step.Authorize? {
      var viewer := s.viewers[step.v];
      PassedInTime(s, viewer.policy, if viewer.phase.Peeked? then viewer.phase.version else 0, step.proof);
    }
  }

  lemma StepKeepsTime(s: State, expiresAt: int, step: Step)
    requires InTime(s, expiresAt)
    ensures InTime(Next(s, step), expiresAt)
  {
    hide ViewStep, WorkStep;
    match step
    case Authorize(_) => ViewKeepsTime(s, expiresAt, step);
    case Retrieve(_, _) => ViewKeepsTime(s, expiresAt, step);
    case Peek(_, _) => ViewKeepsTime(s, expiresAt, step);
    case Consume(_, _) => ViewKeepsTime(s, expiresAt, step);
    case Acquire(_, _) => WorkLeaves(s, step);
    case Remove(_) => WorkLeaves(s, step);
    case Report(_) => WorkLeaves(s, step);
    case Release(_) => WorkLeaves(s, step);
    case _ =>
  }

  lemma {:induction false} TimeOverRuns(s: State, expiresAt: int, steps: seq<Step>)
    requires InTime(s, expiresAt)
    ensures InTime(RunAll(s, steps), expiresAt)
    decreases |steps|
  {
    hide InTime, Next;
    if steps != [] {
      StepKeepsTime(s, expiresAt, steps[0]);
      TimeOverRuns(Next(s, steps[0]), expiresAt, steps[1..]);
    }
  }

  /** Over every interleaving: no text view is counted after the expiry, and no download that did not peek before it. */
  lemma ViewsAreInTime(now: int, maxViews: nat, expiresAt: int, isText: bool, restricted: bool, steps: seq<Step>,
                       v: nat)
    ensures
      var s := RunAll(Created(now, maxViews, expiresAt, isText, restricted), steps);
      v in s.viewers && s.viewers[v].phase.Succeeded? ==>
        match s.viewers[v].phase.peekedAt
        case None => s.viewers[v].phase.countedAt <= expiresAt
        case Some(peek) => peek < expiresAt && peek <= s.viewers[v].phase.countedAt
  {
    hide RunAll, Created;
    TimeOverCreated(now, maxViews, expiresAt, isText, restricted, steps);
    var s := RunAll(Created(now, maxViews, expiresAt, isText, restricted), steps);
    assert v in s.viewers ==> PhaseInTime(s.viewers[v].phase, expiresAt, s.now);
  }

  lemma TimeOverCreated(now: int, maxViews: nat, expiresAt: int, isText: bool, restricted: bool, steps: seq<Step>)
    ensures InTime(RunAll(Created(now, maxViews, expiresAt, isText, restricted), steps), expiresAt)
  {
    TimeOverRuns(Created(now, maxViews, expiresAt, isText, restricted), expiresAt, steps);
  }

  /** The download never looks at the expiry again: at or after it, in any reachable state, a download is counted
      exactly when it peeked before the expiry and the row is still there, unchanged, within budget, and opens. */
  lemma LateDownloadExactly(now: int, maxViews: nat, expiresAt: int, isText: bool, restricted: bool, steps: seq<Step>,
                            v: nat, proof: Proof)
    requires RunAll(Created(now, maxViews, expiresAt, isText, restricted), steps).now >= expiresAt
    ensures
      var s := RunAll(Created(now, maxViews, expiresAt, isText, restricted), steps);
      var s' := Next(s, Consume(v, proof));
      (s'.successes == s.successes + 1) <==>
        && v in s.viewers && s.viewers[v].phase.Peeked? && s.viewers[v].phase.peek < expiresAt
        && s.row.Some? && s.row.value.version == s.viewers[v].phase.version && s.row.value.policy == s.viewers[v].policy
        && s.row.value.views < s.row.value.maxViews && proof.opens
  {
    hide RunAll, Created;
    TimeOverCreated(now, maxViews, expiresAt, isText, restricted, steps);
    var s := RunAll(Created(now, maxViews, expiresAt, isText, restricted), steps);
    assert v in s.viewers ==> PhaseInTime(s.viewers[v].phase, expiresAt, s.now);
  }

  /** Such a download exists: it peeks at once, and is counted 90 seconds after the expiry. */
  lemma DownloadAfterExpiry(proof: Proof)
    requires proof == Proof(true, true, true)
    ensures
      var steps := [Authorize(0), Peek(0, proof), Wait(100), Consume(0, proof)];
      var s := RunAll(Created(0, 2, 10, false, false), steps);
      s.successes == 1 && 0 in s.viewers && s.viewers[0].phase == Succeeded(Some(0), 100)
  {
    var s1 := Next(Created(0, 2, 10, false, false), Authorize(0));
    var s2 := Next(s1, Peek(0, proof));
    var s3 := Next(s2, Wait(100));
    FourSteps(Created(0, 2, 10, false, false), Authorize(0), Peek(0, proof), Wait(100), Consume(0, proof));
    assert Next(s3, Consume(0, proof)).viewers[0].phase == Succeeded(Some(0), 100);
  }

  lemma FourSteps(s: State, a: Step, b: Step, c: Step, d: Step)
    ensures RunAll(s, [a, b, c, d]) == Next(Next(Next(Next(s, a), b), c), d)
  {
    hide Next;
    assert [a, b, c, d][1..] == [b, c, d] && [b, c, d][1..] == [c, d] && [c, d][1..] == [d] && [d][1..] == [];
    var s4 := Next(Next(Next(Next(s, a), b), c), d);
    assert RunAll(s4, []) == s4;
    assert RunAll(Next(Next(Next(s, a), b), c), [d]) == s4;
    assert RunAll(Next(Next(s, a), b), [c, d]) == s4;
  }

  // ---------- The tables and the lock store ----------

  /** The secret's row and its view history, changed in transactions under the row lock. */
  class SecretRecord {
    var now: int
    var row: Option<Row>
    var tracking: bool
    var history: nat
    var successes: nat
    var removals: nat
    var reports: nat
    var burned: bool

    function Contents(): State
      reads this
    {
      State(now, row, tracking, history, map[], map[], 0, map[], successes, removals, reports, burned)
    }

    constructor (now: int, maxViews: nat, expiresAt: int, isText: bool, restricted: bool)
      ensures Contents() == Created(now, maxViews, expiresAt, isText, restricted)
    {
      this.now := now;
      row := Some(Row(0, maxViews, expiresAt, 1, 1, isText, restricted));
      tracking, history, successes, removals, reports, burned := true, 0, 0, 0, 0, false;
    }

    /** The history row is selected from the tracking record, so there is none without it. */
    method InsertView() returns (inserted: nat)
      modifies this`history
      ensures inserted == (if tracking then 1 else 0) && history == old(history) + inserted
    {
      inserted := if tracking then 1 else 0;
      history := history + inserted;
    }

    /** The update of view_count, and the trigger behind it. */
    method UpdateViewCount(count: nat)
      requires row.Some?
      modifies this`row, this`reports, this`removals, this`burned
      ensures
        if count >= old(row).value.maxViews
        then row == None && reports == old(reports) + 1 && removals == old(removals) + 1 && burned
        else row == Some(old(row).value.(views := count)) && reports == old(reports) && removals == old(removals)
             && burned == old(burned)
    {
      row := Some(row.value.(views := count));
      if row.value.views >= row.value.maxViews {
        reports := reports + 1;
        row := None;
        removals := removals + 1;
        burned := true;
      }
    }

    method RetrieveText(policy: nat, proof: Proof) returns (refused: Option<Reason>)
      modifies this
      ensures refused == TextRefusal(old(Contents()), policy, proof)
      ensures Contents() == if refused.None? then Counted(old(Contents())) else old(Contents())
    {
      if row.None? {
        return Some(NotFound);
      }
      var r := row.value;
      if r.policy != policy {
        return Some(StalePolicy);
      }
      if r.expiresAt < now {
        return Some(Expired);
      }
      if r.views >= r.maxViews {
        return Some(Exhausted);
      }
      if !r.isText {
        return Some(WrongPayload);
      }
      if r.restricted && !proof.recipient {
        return Some(NotRecipient);
      }
      if !proof.password {
        return Some(BadPassword);
      }
      if !proof.opens {
        return Some(CryptoFailed);
      }
      var inserted := InsertView();
      if r.restricted && inserted != 1 {
        return Some(Unrecorded);
      }
      UpdateViewCount(r.views + 1);
      successes := successes + 1;
      return None;
    }

    method ConsumeDownload(policy: nat, version: nat, proof: Proof) returns (refused: Option<Reason>)
      modifies this
      ensures refused == ConsumeRefusal(old(Contents()), policy, version, proof)
      ensures Contents() == if refused.None? then Counted(old(Contents())) else old(Contents())
    {
      if row.None? || row.value.version != version {
        return Some(Changed);
      }
      var r := row.value;
      if r.policy != policy {
        return Some(StalePolicy);
      }
      if r.views >= r.maxViews {
        return Some(Exhausted);
      }
      if !proof.opens {
        return Some(CryptoFailed);
      }
      var _ := InsertView();
      UpdateViewCount(r.views + 1);
      successes := successes + 1;
      return None;
    }
  }

  /** The lock keys in Redis. */
  class LockStore {
    var locks: map<Key, Lock>
    var tokens: nat

    /** SET NX EX with a new token. */
    method Acquire(key: Key, now: int) returns (token: Option<nat>)
      modifies this
      ensures tokens == old(tokens) + 1
      ensures token == if Free(old(locks), key, now) then Some(old(tokens)) else None
      ensures locks == if token.Some? then old(locks)[key := Lock(token.value, now + Ttl(key))] else old(locks)
    {
      var mine := tokens;
      tokens := tokens + 1;
      if key in locks && locks[key].until > now {
        return None;
      }
      locks := locks[key := Lock(mine, now + Ttl(key))];
      return Some(mine);
    }

    /** The compare-and-delete script. */
    method Release(key: Key, token: nat, now: int)
      modifies this`locks
      ensures locks == ReleasedLocks(old(locks), key, token, now)
    {
      if key in locks && locks[key].until > now && locks[key].token == token {
        locks := locks - {key};
      }
    }
  }
}
