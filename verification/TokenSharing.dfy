/** Several processes of the command line client at once. They share the configuration file, which nothing locks, and
    the server's session; each has its own copy of the tokens, its own mutex and its own requests. A process ends, or
    dies, at any point. */
module TokenSharing {
  import opened Bytes
  import opened TokenRefresh

  datatype Process = Process(memory: Pair, holder: Option<nat>, requests: map<nat, Request>)

  /** The session is what all processes share; memory and mutex belong to the processes, and its own stay empty. A
      process number is used once. */
  datatype Shared = Shared(session: Session, processes: map<nat, Process>, used: set<nat>)

  datatype Event = Open(p: nat) | Exit(p: nat) | Within(p: nat, step: Step)

  /** The session as one process sees it. */
  function View(s: Shared, p: nat): State
    requires p in s.processes
  {
    var own := s.processes[p];
    State(s.session.(memory := own.memory, holder := own.holder), own.requests)
  }

  function After(s: Shared, event: Event): Shared {
    match event
    case Open(p) =>
      if p in s.used then s
      else
        s.(processes := s.processes[p := Process(Loaded(s.session.disk), None, map[])], used := s.used + {p})
    case Exit(p) => s.(processes := s.processes - {p})
    case Within(p, step) =>
      if p !in s.processes || step.Crash? then s
      else
        var v := Next(View(s, p), step);
        s.(session := v.session.(memory := Forgotten(), holder := None),
           processes := s.processes[p := Process(v.session.memory, v.session.holder, v.requests)])
  }

  function RunEvents(s: Shared, events: seq<Event>): Shared
    decreases |events|
  {
    if events == [] then s else RunEvents(After(s, events[0]), events[1..])
  }

  /** Nobody runs, and the file holds the given pair. */
  function Idle(disk: Pair): Shared {
    Shared(Opened(disk).session.(memory := Forgotten()), map[], {})
  }

  /** The token for which a process receives a grant by a step of its request, if any. */
  function GrantAt(p: nat, r: Request, action: Action): set<(nat, Token)> {
    if action.Answer? && action.reply.Grant? && r.point.Asking? then {(p, r.point.token)} else {}
  }

  function GrantBy(s: Shared, event: Event): set<(nat, Token)> {
    match event
    case Within(p, Move(g, action)) =>
      if p in s.processes && g in s.processes[p].requests then GrantAt(p, s.processes[p].requests[g], action) else {}
    case _ => {}
  }

  /** Which process received a grant for which refresh token in a run. */
  ghost function Grants(s: Shared, events: seq<Event>): set<(nat, Token)>
    decreases |events|
  {
    if events == [] then {} else GrantBy(s, events[0]) + Grants(After(s, events[0]), events[1..])
  }

  // ---------- Invariants ----------

  /** A process holds no token for which it has received a grant, except while it deals with that grant. */
  ghost predicate OwnTokens(p: nat, s: Session, point: Point, given: set<(nat, Token)>) {
    && s.memory.refresh <= s.issued
    && (point.Asking? ==> point.token == s.memory.refresh != EMPTY)
    && (if point.Granted? || point.Saved? then point.pair.refresh <= s.issued && (p, point.pair.refresh) !in given
        else (p, s.memory.refresh) !in given)
  }

  ghost predicate RequestsSound(v: State) {
    OneInside(v) && RequestsFit(v.requests, v.session.persisted) && v.session.memory.access in v.session.persisted
  }

  ghost predicate ProcessSound(p: nat, v: State, given: set<(nat, Token)>) {
    RequestsSound(v) && OwnTokens(p, v.session, HolderPoint(v), given)
  }

  /** The grants are those that the server has made, for tokens that it had issued. */
  ghost predicate GrantsFit(s: Session, used: set<nat>, given: set<(nat, Token)>) {
    && (forall q, t :: (q, t) in given ==> q in used && t in s.rotated && t != EMPTY && t <= s.issued)
    && (forall t :: t in s.rotated ==> exists q :: (q, t) in given)
  }

  ghost predicate DiskFits(s: Session) {
    s.disk.refresh <= s.issued && s.disk.access in s.persisted && EMPTY in s.persisted && s.sent <= s.persisted
  }

  ghost predicate Sound(s: Shared, given: set<(nat, Token)>) {
    && (forall p :: p in s.processes ==> p in s.used && ProcessSound(p, View(s, p), given))
    && GrantsFit(s.session, s.used, given)
    && DiskFits(s.session)
  }

  // ---------- One process takes a step ----------

  lemma OutsideSound(v: State, g: nat, action: Action)
    requires RequestsSound(v) && g in v.requests && !InsideAction(action) && DiskFits(v.session)
    ensures RequestsSound(Next(v, Move(g, action))) && HolderPoint(Next(v, Move(g, action))) == HolderPoint(v)
    ensures
      var s' := Next(v, Move(g, action)).session;
      s' == v.session.(sent := s'.sent) && s'.sent <= v.session.persisted
  {
    hide Outside, Bounded;
    OutsideRequest(v.session, v.requests[g], action);
    assert CarriesPersisted(v.requests[g], v.session.persisted);
  }

  lemma InsideSound(v: State, g: nat, action: Action)
    requires RequestsSound(v) && g in v.requests && InsideAction(action) && DiskFits(v.session)
    ensures RequestsSound(Next(v, Move(g, action)))
    ensures
      var s' := Next(v, Move(g, action)).session;
      v.session.persisted <= s'.persisted && s'.memory.access in s'.persisted
  {
    hide Inside, Bounded;
    var r, v' := v.requests[g], Next(v, Move(g, action));
    assert CarriesPersisted(r, v.session.persisted);
    InsideRequest(v.session, g, r, action);
    InstallsPersisted(v.session, g, r, action);
    CarriesLater(v.requests, v.session.persisted, v'.session.persisted);
  }

  lemma InstallsPersisted(s: Session, g: nat, r: Request, action: Action)
    requires s.memory.access in s.persisted && EMPTY in s.persisted && CarriesPersisted(r, s.persisted)
    ensures Inside(s, g, r, action).0.memory.access in Inside(s, g, r, action).0.persisted
  {
  }

  lemma InsideOwn(p: nat, s: Session, g: nat, r: Request, action: Action, used: set<nat>, given: set<(nat, Token)>)
    requires s.holder == Some(g) && p in used
    requires OwnTokens(p, s, r.point, given) && GrantsFit(s, used, given)
    ensures
      var s', given' := Inside(s, g, r, action).0, given + GrantAt(p, r, action);
      OwnTokens(p, s', PointAfter(s, g, r, action), given') && GrantsFit(s', used, given')
  {
  }

  lemma InsideDisk(p: nat, s: Session, g: nat, r: Request, action: Action, given: set<(nat, Token)>)
    requires s.holder == Some(g) && OwnTokens(p, s, r.point, given) && DiskFits(s)
    ensures DiskFits(Inside(s, g, r, action).0)
  {
  }

  /** The grant, if any, that a process receives by a step. */
  function GrantIn(p: nat, v: State, step: Step): set<(nat, Token)> {
    if step.Move? && step.g in v.requests then GrantAt(p, v.requests[step.g], step.action) else {}
  }

  /** What a step of one process leaves to it and to the others. */
  ghost predicate StepSound(p: nat, v: State, step: Step, used: set<nat>, given: set<(nat, Token)>) {
    var v', given' := Next(v, step), given + GrantIn(p, v, step);
    && ProcessSound(p, v', given') && GrantsFit(v'.session, used, given') && DiskFits(v'.session)
    && v.session.persisted <= v'.session.persisted && v.session.issued <= v'.session.issued
  }

  lemma InsideStep(p: nat, v: State, g: nat, action: Action, used: set<nat>, given: set<(nat, Token)>)
    requires ProcessSound(p, v, given) && GrantsFit(v.session, used, given) && DiskFits(v.session) && p in used
    requires g in v.requests && InsideAction(action)
    ensures StepSound(p, v, Move(g, action), used, given)
  {
    hide Inside, OwnTokens, GrantsFit, DiskFits, RequestsFit, Bounded;
    var r := v.requests[g];
    InsideSound(v, g, action);
    IssuesMore(v.session, g, r, action);
    assert Bounded(r) && CarriesPersisted(r, v.session.persisted) by { FitsEach(v, g); }
    InsideRequest(v.session, g, r, action);
    if InSection(r.point) {
      HolderIs(v, g);
      InsideOwn(p, v.session, g, r, action, used, given);
      InsideDisk(p, v.session, g, r, action, given);
    } else {
      NoSection(v.session, g, r, action);
      assert given + GrantAt(p, r, action) == given;
      HolderIsNothing(p, v.session, Next(v, Move(g, action)).session, used, given);
    }
  }

  lemma FitsEach(v: State, g: nat)
    requires RequestsSound(v) && g in v.requests
    ensures Bounded(v.requests[g]) && CarriesPersisted(v.requests[g], v.session.persisted)
  {
    hide Bounded, CarriesPersisted;
  }

  lemma IssuesMore(s: Session, g: nat, r: Request, action: Action)
    ensures s.issued <= Inside(s, g, r, action).0.issued
  {
  }

  /** Taking the mutex changes neither tokens nor grants. */
  lemma HolderIsNothing(p: nat, s: Session, s': Session, used: set<nat>, given: set<(nat, Token)>)
    requires s' == s.(holder := s'.holder)
    ensures GrantsFit(s, used, given) ==> GrantsFit(s', used, given)
    ensures DiskFits(s) ==> DiskFits(s')
    ensures forall failed, retry ::
              OwnTokens(p, s, Done, given) ==> OwnTokens(p, s', Holding(failed, retry), given)
    ensures forall point :: OwnTokens(p, s, point, given) ==> OwnTokens(p, s', point, given)
  {
  }

  lemma OutsideStep(p: nat, v: State, g: nat, action: Action, used: set<nat>, given: set<(nat, Token)>)
    requires ProcessSound(p, v, given) && GrantsFit(v.session, used, given) && DiskFits(v.session) && p in used
    requires g in v.requests && !InsideAction(action)
    ensures StepSound(p, v, Move(g, action), used, given)
  {
    hide Outside, RequestsSound, HolderPoint;
    OutsideSound(v, g, action);
    assert given + GrantAt(p, v.requests[g], action) == given;
  }

  lemma BeginStep(p: nat, v: State, g: nat, used: set<nat>, given: set<(nat, Token)>)
    requires ProcessSound(p, v, given) && GrantsFit(v.session, used, given) && DiskFits(v.session) && p in used
    ensures StepSound(p, v, Begin(g), used, given)
  {
    hide OwnTokens, GrantsFit, DiskFits;
    assert given + GrantIn(p, v, Begin(g)) == given;
    assert HolderPoint(Next(v, Begin(g))) == HolderPoint(v);
  }

  lemma EachStep(p: nat, v: State, step: Step, used: set<nat>, given: set<(nat, Token)>)
    requires ProcessSound(p, v, given) && GrantsFit(v.session, used, given) && DiskFits(v.session) && p in used
    requires !step.Crash?
    ensures StepSound(p, v, step, used, given)
  {
    hide ProcessSound, GrantsFit, DiskFits, Inside, Outside;
    match step
    case Begin(g) => BeginStep(p, v, g, used, given);
    case Move(g, action) =>
      if g !in v.requests {
        assert given + GrantIn(p, v, step) == given;
      } else if InsideAction(action) {
        InsideStep(p, v, g, action, used, given);
      } else {
        OutsideStep(p, v, g, action, used, given);
      }
  }

  // ---------- The other processes meanwhile ----------

  /** Only what is shared may have changed, and it has only grown. */
  ghost predicate Bystander(q: nat, v: State, v': State, given: set<(nat, Token)>, given': set<(nat, Token)>) {
    && v'.requests == v.requests && v'.session.memory == v.session.memory && v'.session.holder == v.session.holder
    && v.session.persisted <= v'.session.persisted && v.session.issued <= v'.session.issued
    && forall t :: (q, t) in given' <==> (q, t) in given
  }

  lemma BystanderStaysSound(q: nat, v: State, v': State, given: set<(nat, Token)>, given': set<(nat, Token)>)
    requires ProcessSound(q, v, given) && Bystander(q, v, v', given, given')
    ensures ProcessSound(q, v', given')
  {
    CarriesLater(v.requests, v.session.persisted, v'.session.persisted);
  }

  lemma StepBystander(s: Shared, p: nat, step: Step, q: nat, given: set<(nat, Token)>)
    requires p in s.processes && q in s.processes && q != p && !step.Crash?
    requires StepSound(p, View(s, p), step, s.used, given)
    ensures
      Bystander(q, View(s, q), View(After(s, Within(p, step)), q), given, given + GrantIn(p, View(s, p), step))
  {
    hide Next, ProcessSound, GrantsFit, DiskFits;
  }

  /** The parts of a session that belong to a process do not matter for the shared parts. */
  lemma SharedParts(s: Session, s': Session, used: set<nat>, given: set<(nat, Token)>)
    requires s' == s.(memory := s'.memory, holder := s'.holder)
    ensures GrantsFit(s, used, given) <==> GrantsFit(s', used, given)
    ensures DiskFits(s) <==> DiskFits(s')
  {
  }

  lemma WithinSound(s: Shared, p: nat, step: Step, given: set<(nat, Token)>)
    requires Sound(s, given) && p in s.processes && !step.Crash?
    ensures Sound(After(s, Within(p, step)), given + GrantIn(p, View(s, p), step))
  {
    hide ProcessSound, GrantsFit, DiskFits, Next, Bystander;
    var v, s' := View(s, p), After(s, Within(p, step));
    var given' := given + GrantIn(p, v, step);
    SharedParts(s.session, v.session, s.used, given);
    EachStep(p, v, step, s.used, given);
    SharedParts(Next(v, step).session, s'.session, s.used, given');
    forall q | q in s'.processes ensures ProcessSound(q, View(s', q), given') {
      if q == p {
        assert View(s', p) == Next(v, step);
      } else {
        StepBystander(s, p, step, q, given);
        BystanderStaysSound(q, View(s, q), View(s', q), given, given');
      }
    }
  }

  lemma OpenSound(s: Shared, p: nat, given: set<(nat, Token)>)
    requires Sound(s, given) && p !in s.used
    ensures Sound(After(s, Open(p)), given)
  {
    var s' := After(s, Open(p));
    forall q | q in s'.processes ensures q in s'.used && ProcessSound(q, View(s', q), given) {
      if q != p {
        assert View(s', q) == View(s, q);
      }
    }
  }

  lemma ExitSound(s: Shared, p: nat, given: set<(nat, Token)>)
    requires Sound(s, given)
    ensures Sound(After(s, Exit(p)), given)
  {
    hide ProcessSound, GrantsFit, DiskFits;
    var s' := After(s, Exit(p));
    forall q | q in s'.processes ensures ProcessSound(q, View(s', q), given) {
      assert View(s', q) == View(s, q);
    }
  }

  lemma EventSound(s: Shared, event: Event, given: set<(nat, Token)>)
    requires Sound(s, given)
    ensures Sound(After(s, event), given + GrantBy(s, event))
  {
    hide Sound, Next;
    assert given + {} == given;
    match event
    case Open(p) =>
      if p !in s.used {
        OpenSound(s, p, given);
      }
    case Exit(p) => ExitSound(s, p, given);
    case Within(p, step) =>
      if p in s.processes && !step.Crash? {
        WithinSound(s, p, step, given);
      }
  }

  lemma {:induction false} SoundOverRuns(s: Shared, events: seq<Event>, given: set<(nat, Token)>)
    requires Sound(s, given)
    ensures Sound(RunEvents(s, events), given + Grants(s, events))
    decreases |events|
  {
    hide Sound, After, GrantBy;
    if events == [] {
      assert given + {} == given;
    } else {
      var first := GrantBy(s, events[0]);
      EventSound(s, events[0], given);
      SoundOverRuns(After(s, events[0]), events[1..], given + first);
      assert given + first + Grants(After(s, events[0]), events[1..]) == given + Grants(s, events);
    }
  }

  lemma IdleIsSound(disk: Pair)
    ensures Sound(Idle(disk), {})
  {
  }

  lemma ReachedIsSound(disk: Pair, events: seq<Event>)
    ensures Sound(RunEvents(Idle(disk), events), Grants(Idle(disk), events))
  {
    hide Sound, RunEvents, Grants;
    IdleIsSound(disk);
    SoundOverRuns(Idle(disk), events, {});
    assert {} + Grants(Idle(disk), events) == Grants(Idle(disk), events);
  }

  // ---------- What runs guarantee, however processes overlap ----------

  /** No process ever presents a refresh token for which it has received a grant itself. So a token that the server has
      replaced is presented exactly when the reply to a refresh with it was lost, or the grant went to another process:
      one that runs at the same time, or one that ended before it had saved the new pair. */
  lemma SpentExactly(disk: Pair, events: seq<Event>, p: nat, g: nat)
    requires
      var s := RunEvents(Idle(disk), events);
      p in s.processes && g in s.processes[p].requests && s.processes[p].requests[g].point.Asking?
    ensures
      var s, grants := RunEvents(Idle(disk), events), Grants(Idle(disk), events);
      var t := s.processes[p].requests[g].point.token;
      && (p, t) !in grants
      && (t in s.session.Spent() <==> t in s.session.lost || exists q :: q != p && (q, t) in grants)
  {
    hide RunEvents, Grants, Idle, RequestsFit;
    ReachedIsSound(disk, events);
    var s, grants := RunEvents(Idle(disk), events), Grants(Idle(disk), events);
    assert ProcessSound(p, View(s, p), grants);
    HolderIs(View(s, p), g);
  }

  /** No access token is sent that was not on disk before, and one call of send makes at most two sends and two
      refreshes. */
  lemma SentWasSaved(disk: Pair, events: seq<Event>, p: nat, g: nat)
    ensures
      var s := RunEvents(Idle(disk), events);
      && s.session.sent <= s.session.persisted
      && (p in s.processes && g in s.processes[p].requests ==>
            s.processes[p].requests[g].sends <= 2 && s.processes[p].requests[g].asks <= 2)
  {
    hide RunEvents, Grants, Idle, CarriesPersisted;
    ReachedIsSound(disk, events);
    var s := RunEvents(Idle(disk), events);
    if p in s.processes && g in s.processes[p].requests {
      assert ProcessSound(p, View(s, p), Grants(Idle(disk), events));
      assert Bounded(View(s, p).requests[g]);
    }
  }

  // ---------- What overlapping processes do to each other ----------

  /** The steps of one process while no other takes any. */
  function Alone(p: nat, steps: seq<Step>): seq<Event>
    decreases |steps|
  {
    if steps == [] then [] else [Within(p, steps[0])] + Alone(p, steps[1..])
  }

  lemma {:induction false} RunEventsJoin(s: Shared, a: seq<Event>, b: seq<Event>)
    ensures RunEvents(s, a + b) == RunEvents(RunEvents(s, a), b)
    decreases |a|
  {
    hide After;
    if a == [] {
      assert a + b == b;
    } else {
      assert (a + b)[1..] == a[1..] + b;
      RunEventsJoin(After(s, a[0]), a[1..], b);
    }
  }

  /** The shared state once a process is in the given state of its own. */
  function With(s: Shared, p: nat, v: State): Shared {
    s.(session := v.session.(memory := Forgotten(), holder := None),
       processes := s.processes[p := Process(v.session.memory, v.session.holder, v.requests)])
  }

  lemma {:induction false} RunsAlone(s: Shared, p: nat, steps: seq<Step>)
    requires p in s.processes && s == With(s, p, View(s, p)) && Crash !in steps
    ensures RunEvents(s, Alone(p, steps)) == With(s, p, RunAll(View(s, p), steps))
    decreases |steps|
  {
    hide Next;
    if steps != [] {
      var s' := After(s, Within(p, steps[0]));
      assert s' == With(s, p, Next(View(s, p), steps[0]));
      assert View(s', p) == Next(View(s, p), steps[0]);
      assert Alone(p, steps)[1..] == Alone(p, steps[1..]);
      RunsAlone(s', p, steps[1..]);
    }
  }

  /** Process 1 refreshes and saves while process 2, which has read the same pair, is waiting; then 2 refreshes. */
  function FirstRefreshes(): seq<Step> {
    UpToAsking(0) + [Move(0, Answer(Grant(true, true))), Move(0, Persist(true, false)), Move(0, Install)]
  }

  function Overlap(): seq<Event> {
    [Open(1), Open(2)] + Alone(1, FirstRefreshes()) + Alone(2, UpToAsking(0))
  }

  lemma TwoOpen(disk: Pair)
    requires Usable(disk)
    ensures
      RunEvents(Idle(disk), [Open(1), Open(2)])
      == Idle(disk).(processes := map[1 := Process(disk, None, map[]), 2 := Process(disk, None, map[])], used := {1, 2})
  {
    var s1 := After(Idle(disk), Open(1));
    var s2 := After(s1, Open(2));
    assert [Open(1), Open(2)][1..] == [Open(2)] && [Open(2)][1..] == [];
    assert RunEvents(s2, []) == s2;
    assert RunEvents(s1, [Open(2)]) == s2;
    assert s2.processes == map[1 := Process(disk, None, map[]), 2 := Process(disk, None, map[])];
  }

  function Issued(s: Session): Pair { Pair(s.issued + 1, s.issued + 2) }

  /** What a refresh that goes well makes of the session. */
  function Refreshed(s: Session): Session {
    var pair := Issued(s);
    s.(memory := pair, disk := pair, rotated := s.rotated + {s.memory.refresh},
       retired := s.retired + multiset{s.memory.access}, issued := s.issued + 2,
       persisted := s.persisted + {pair.access}, damaged := false, holder := None)
  }

  lemma RefreshesAlone(v: State)
    requires v.requests == map[] && v.session.holder == None && v.session.memory.refresh != EMPTY
    ensures
      RunAll(v, FirstRefreshes()) == State(Refreshed(v.session), map[0 := Request(Resuming(false), 0, 1)])
  {
    hide RunAll, UpToAsking;
    var last := [Move(0, Answer(Grant(true, true))), Move(0, Persist(true, false)), Move(0, Install)];
    RunAllJoin(v, UpToAsking(0), last);
    AsksWithStoredToken(v, 0);
    ThreeLast(v, RunAll(v, UpToAsking(0)));
  }

  function OnlyRequest(point: Point): map<nat, Request> {
    map[0 := Request(point, 0, 1)]
  }

  lemma GrantedAlone(s: Session)
    ensures
      Next(State(s, OnlyRequest(Asking(s.memory.refresh, false))), Move(0, Answer(Grant(true, true))))
      == State(s.(rotated := s.rotated + {s.memory.refresh}, retired := s.retired + multiset{s.memory.access},
                  issued := s.issued + 2),
               OnlyRequest(Granted(Issued(s), false)))
  {
  }

  lemma SavedAlone(s: Session, pair: Pair)
    ensures
      Next(State(s, OnlyRequest(Granted(pair, false))), Move(0, Persist(true, false)))
      == State(s.(disk := pair, persisted := s.persisted + {pair.access}, damaged := false),
               OnlyRequest(Saved(pair, false)))
  {
  }

  lemma InstalledAlone(s: Session, pair: Pair)
    ensures
      Next(State(s, OnlyRequest(Saved(pair, false))), Move(0, Install))
      == State(s.(memory := pair, holder := None), OnlyRequest(Resuming(false)))
  {
  }

  lemma ThreeLast(v: State, asked: State)
    requires v.session.holder == None
    requires asked == State(v.session.(holder := Some(0)), OnlyRequest(Asking(v.session.memory.refresh, false)))
    ensures
      RunAll(asked, [Move(0, Answer(Grant(true, true))), Move(0, Persist(true, false)), Move(0, Install)])
      == State(Refreshed(v.session), OnlyRequest(Resuming(false)))
  {
    hide RunAll, Next, OnlyRequest;
    var a, b, c := Move(0, Answer(Grant(true, true))), Move(0, Persist(true, false)), Move(0, Install);
    assert [a, b, c] == [a] + ([b] + ([c] + []));
    OneStep(asked, a, [b] + ([c] + []));
    OneStep(Next(asked, a), b, [c] + []);
    OneStep(Next(Next(asked, a), b), c, []);
    RunNothing(Next(Next(Next(asked, a), b), c));
    GrantedAlone(asked.session);
    SavedAlone(Next(asked, a).session, Issued(v.session));
    InstalledAlone(Next(Next(asked, a), b).session, Issued(v.session));
  }

  /** Both processes have read the same pair; the first refreshes and saves. */
  lemma FirstIsRefreshed(disk: Pair)
    requires Usable(disk)
    ensures
      var s := RunEvents(Idle(disk), [Open(1), Open(2)] + Alone(1, FirstRefreshes()));
      && s.processes.Keys == {1, 2} && s.processes[2] == Process(disk, None, map[])
      && s.session == Refreshed(Opened(disk).session).(memory := Forgotten())
  {
    hide RunEvents, RunAll, FirstRefreshes, Alone, Refreshed;
    TwoOpen(disk);
    var both := RunEvents(Idle(disk), [Open(1), Open(2)]);
    RunEventsJoin(Idle(disk), [Open(1), Open(2)], Alone(1, FirstRefreshes()));
    assert View(both, 1).session == Opened(disk).session;
    assert both == With(both, 1, View(both, 1));
    NoCrashInside();
    RunsAlone(both, 1, FirstRefreshes());
    RefreshesAlone(View(both, 1));
    RefreshedHolder(Opened(disk).session);
  }

  lemma RefreshedHolder(s: Session)
    ensures Refreshed(s).holder == None
  {
  }

  lemma NoCrashInside()
    ensures Crash !in FirstRefreshes() && Crash !in UpToAsking(0)
  {
  }

  /** The second process then presents a token that the server has rotated, although no reply was lost and no process
      has ended; and when the server rejects it, the second process clears the file of the first. */
  lemma OverlapPresentsRotated(access: Token, refresh: Token)
    requires 0 < access < refresh
    ensures
      var s := RunEvents(Idle(Pair(access, refresh)), Overlap());
      && s.processes.Keys == {1, 2} && s.session.lost == {} && s.session.disk != s.processes[2].memory
      && 0 in s.processes[2].requests && s.processes[2].requests[0].point == Asking(refresh, false)
      && refresh in s.session.rotated && Usable(s.session.disk)
      && After(s, Within(2, Move(0, Answer(Reject(true))))).session.disk == Forgotten()
  {
    hide RunEvents, RunAll, FirstRefreshes, UpToAsking, Alone;
    var disk := Pair(access, refresh);
    var first := [Open(1), Open(2)] + Alone(1, FirstRefreshes());
    var s := RunEvents(Idle(disk), first);
    FirstIsRefreshed(disk);
    RunEventsJoin(Idle(disk), first, Alone(2, UpToAsking(0)));
    assert s == With(s, 2, View(s, 2));
    NoCrashInside();
    RunsAlone(s, 2, UpToAsking(0));
    AsksWithStoredToken(View(s, 2), 0);
  }
}
