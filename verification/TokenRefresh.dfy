/** The command line client's access-token renewal: any number of goroutines share one token pair behind a mutex, the
    server rotates refresh tokens, and the pair is persisted before it is used. Here one process at a time uses the
    configuration file: each starts after the one before it has ended or died. TokenSharing has them overlap. */
module TokenRefresh {
  import opened Bytes

  /** Tokens are numbered by the server; 0 is the empty string. */
  type Token = nat

  const EMPTY: Token := 0

  datatype Pair = Pair(access: Token, refresh: Token)

  /** The program point of a request inside send and refreshAccessToken; retry marks the part after a 401. */
  datatype Point =
    | Starting
    | Checking(token: Token)
    | Waiting(failed: Token, retry: bool)
    | Holding(failed: Token, retry: bool)
    | Asking(token: Token, retry: bool)
    | Granted(pair: Pair, retry: bool)
    | Saved(pair: Pair, retry: bool)
    | Resuming(retry: bool)
    | Sending(token: Token, retry: bool)
    | Challenged(token: Token)
    | Done

  datatype Request = Request(point: Point, sends: nat, asks: nat)

  /** The session: tokens in memory and on disk, the mutex, and what the server has done. rotated holds refresh tokens
      whose replacement reached the client, lost those whose replacement did not; retired counts, for each access
      token, the refreshes granted while it was in use; persisted and sent are the access tokens that ever reached the
      disk and the network. damaged: saving a new pair failed and the old one could not be cleared. */
  datatype Session = Session(
    memory: Pair,
    disk: Pair,
    holder: Option<nat>,
    issued: nat,
    rotated: set<Token>,
    lost: set<Token>,
    retired: multiset<Token>,
    persisted: set<Token>,
    sent: set<Token>,
    damaged: bool) {

    /** The refresh tokens that the server has replaced, whether or not the client knows. */
    function Spent(): set<Token> { rotated + lost }
  }

  datatype State = State(session: Session, requests: map<nat, Request>)

  /** The server's answer to a refresh: a new pair (either token may be missing from the body), a 400 or 401, or any
      other failure, after which the server may or may not have rotated. */
  datatype Reply = Grant(withAccess: bool, withRefresh: bool) | Reject(cleared: bool) | Failure(served: bool)

  datatype Action =
    | Snapshot
    | CheckExpiry(soon: bool)
    | Acquire
    | Inspect(soon: bool)
    | Answer(reply: Reply)
    | Persist(saved: bool, cleared: bool)
    | Install
    | Resume
    | Send(challenged: bool)
    | CheckRetry

  datatype Step = Begin(g: nat) | Move(g: nat, action: Action) | Crash

  // ---------- Steps ----------

  function Forgotten(): Pair {
    Pair(EMPTY, EMPTY)
  }

  function Issue(s: Session, reply: Reply): Pair
    requires reply.Grant?
  {
    Pair(if reply.withAccess then s.issued + 1 else EMPTY, if reply.withRefresh then s.issued + 2 else EMPTY)
  }

  /** Outside the critical section: starting, taking snapshots, sending. Each waits for the mutex to be free. */
  function Outside(s: Session, r: Request, action: Action): Request {
    match (action, r.point)
    case (Snapshot, Starting) => if s.holder.Some? then r else r.(point := Checking(s.memory.access))
    case (CheckExpiry(soon), Checking(token)) =>
      if s.holder.Some? then r
      else r.(point := if s.memory.refresh != EMPTY && soon then Waiting(token, false) else Sending(token, false))
    case (Resume, Resuming(retry)) => if s.holder.Some? then r else r.(point := Sending(s.memory.access, retry))
    case (Send(challenged), Sending(token, retry)) =>
      r.(point := if challenged && !retry then Challenged(token) else Done, sends := r.sends + 1)
    case (CheckRetry, Challenged(token)) =>
      if s.holder.Some? then r else r.(point := if s.memory.refresh != EMPTY then Waiting(token, true) else Done)
    case _ => r
  }

  /** Inside the critical section, and entering it. */
  function Inside(s: Session, g: nat, r: Request, action: Action): (Session, Request) {
    match (action, r.point)
    case (Acquire, Waiting(failed, retry)) =>
      if s.holder.Some? then (s, r) else (s.(holder := Some(g)), r.(point := Holding(failed, retry)))
    case (Inspect(soon), Holding(failed, retry)) =>
      if s.memory.access != failed && !soon then (s.(holder := None), r.(point := Resuming(retry)))
      else if s.memory.refresh == EMPTY then (s.(holder := None), r.(point := Done))
      else (s, r.(point := Asking(s.memory.refresh, retry), asks := r.asks + 1))
    case (Answer(reply), Asking(token, retry)) => Answered(s, r, token, retry, reply)
    case (Persist(saved, cleared), Granted(pair, retry)) =>
      if saved then
        (s.(disk := pair, persisted := s.persisted + {pair.access}, damaged := false), r.(point := Saved(pair, retry)))
      else
        (s.(memory := Forgotten(), disk := if cleared then Forgotten() else s.disk,
            damaged := !cleared, holder := None),
         r.(point := Done))
    case (Install, Saved(pair, retry)) => (s.(memory := pair, holder := None), r.(point := Resuming(retry)))
    case _ => (s, r)
  }

  function Answered(s: Session, r: Request, token: Token, retry: bool, reply: Reply): (Session, Request) {
    match reply
    case Grant(_, _) =>
      (s.(rotated := s.rotated + {token}, retired := s.retired + multiset{s.memory.access}, issued := s.issued + 2),
       r.(point := Granted(Issue(s, reply), retry)))
    case Reject(cleared) =>
      (s.(memory := Forgotten(), disk := if cleared then Forgotten() else s.disk, holder := None), r.(point := Done))
    case Failure(served) =>
      (s.(lost := if served then s.lost + {token} else s.lost, holder := None), r.(point := Done))
  }

  /** What a new process has read from disk; renewal is enabled only when both tokens are there. */
  function Loaded(disk: Pair): Pair {
    Pair(disk.access, if disk.access != EMPTY then disk.refresh else EMPTY)
  }

  function Restarted(s: Session): Session {
    s.(memory := Loaded(s.disk), holder := None)
  }

  function Logged(s: Session, r: Request, action: Action): Session {
    if action.Send? && r.point.Sending? && r.point.token != EMPTY then s.(sent := s.sent + {r.point.token}) else s
  }

  predicate InsideAction(action: Action) {
    action.Acquire? || action.Inspect? || action.Answer? || action.Persist? || action.Install?
  }

  function Next(s: State, step: Step): State {
    match step
    case Crash => State(Restarted(s.session), map[])
    case Begin(g) => if g in s.requests then s else s.(requests := s.requests[g := Request(Starting, 0, 0)])
    case Move(g, action) =>
      if g !in s.requests then s
      else if InsideAction(action) then
        var (session, r) := Inside(s.session, g, s.requests[g], action);
        State(session, s.requests[g := r])
      else
        State(Logged(s.session, s.requests[g], action),
              s.requests[g := Outside(s.session, s.requests[g], action)])
  }

  function RunAll(s: State, steps: seq<Step>): State
    decreases |steps|
  {
    if steps == [] then s else RunAll(Next(s, steps[0]), steps[1..])
  }

  /** A process that has just read its pair from disk. */
  function Opened(disk: Pair): State {
    State(Session(Loaded(disk), disk, None,
                  disk.access + disk.refresh, {}, {}, multiset{}, {disk.access, EMPTY}, {}, false),
          map[])
  }

  // ---------- Invariants ----------

  predicate InSection(p: Point) {
    p.Holding? || p.Asking? || p.Granted? || p.Saved?
  }

  /** The holder of the mutex is the one request inside the critical section. */
  ghost predicate OneInside(s: State) {
    && (s.session.holder.Some? ==>
          s.session.holder.value in s.requests && InSection(s.requests[s.session.holder.value].point))
    && (forall g :: g in s.requests && InSection(s.requests[g].point) ==> s.session.holder == Some(g))
  }

  /** At most two sends and two refreshes for one request. */
  predicate Bounded(r: Request) {
    match r.point
    case Starting => r.sends == 0 && r.asks == 0
    case Checking(_) => r.sends == 0 && r.asks == 0
    case Waiting(_, retry) => r.sends == (if retry then 1 else 0) && r.asks <= (if retry then 1 else 0)
    case Holding(_, retry) => r.sends == (if retry then 1 else 0) && r.asks <= (if retry then 1 else 0)
    case Asking(_, retry) => r.sends == (if retry then 1 else 0) && r.asks <= (if retry then 2 else 1)
    case Granted(_, retry) => r.sends == (if retry then 1 else 0) && r.asks <= (if retry then 2 else 1)
    case Saved(_, retry) => r.sends == (if retry then 1 else 0) && r.asks <= (if retry then 2 else 1)
    case Resuming(retry) => r.sends == (if retry then 1 else 0) && r.asks <= (if retry then 2 else 1)
    case Sending(_, retry) => r.sends == (if retry then 1 else 0) && r.asks <= (if retry then 2 else 1)
    case Challenged(_) => r.sends == 1 && r.asks <= 1
    case Done => r.sends <= 2 && r.asks <= 2
  }

  /** The access token a request is about to send, or to install, has been on disk. */
  predicate CarriesPersisted(r: Request, persisted: set<Token>) {
    match r.point
    case Checking(token) => token in persisted
    case Sending(token, _) => token in persisted
    case Challenged(token) => token in persisted
    case Saved(pair, _) => pair.access in persisted
    case _ => true
  }

  ghost predicate RequestsFit(requests: map<nat, Request>, persisted: set<Token>) {
    forall g :: g in requests ==> Bounded(requests[g]) && CarriesPersisted(requests[g], persisted)
  }

  ghost predicate PersistedFirst(s: Session) {
    && s.memory.access in s.persisted && s.disk.access in s.persisted && EMPTY in s.persisted
    && (forall t :: t in s.sent ==> t in s.persisted)
  }

  function HolderPoint(s: State): Point {
    if s.session.holder.Some? && s.session.holder.value in s.requests
    then s.requests[s.session.holder.value].point else Done
  }

  /** A usable pair in memory is the pair on disk, except between saving a new pair and installing it. */
  ghost predicate MemoryIsDisk(s: Session, p: Point) {
    && (s.memory.refresh != EMPTY && !p.Saved? ==> s.memory == s.disk)
    && (p.Asking? ==> p.token == s.memory.refresh != EMPTY)
    && (p.Granted? ==> s.memory.refresh != EMPTY && s.memory.refresh in s.rotated)
    && (p.Saved? ==> p.pair == s.disk && !s.damaged)
  }

  ghost predicate KnownTokens(s: Session, p: Point) {
    && s.memory.access <= s.issued && s.memory.refresh <= s.issued
    && s.disk.access <= s.issued && s.disk.refresh <= s.issued
    && EMPTY !in s.Spent()
    && (forall t :: t in s.Spent() ==> t <= s.issued)
    && (forall t :: t in s.retired ==> t <= s.issued)
    && (p.Granted? || p.Saved? ==> UnusedPair(s, p.pair))
  }

  ghost predicate UnusedPair(s: Session, pair: Pair) {
    && pair.access <= s.issued && pair.refresh <= s.issued
    && Unused(s, pair)
  }

  /** A new process renews tokens only when it finds both. */
  predicate Usable(pair: Pair) {
    pair.access != EMPTY && pair.refresh != EMPTY
  }

  /** No refresh was granted for this pair yet. */
  ghost predicate Unused(s: Session, pair: Pair) {
    && pair.refresh !in s.rotated
    && (pair.access != EMPTY ==> pair.access !in s.retired)
  }

  /** No refresh was granted for the pair in use, the disk falls behind only between a grant and its saving, and no
      access token was refreshed twice. */
  ghost predicate NotStale(s: Session, p: Point) {
    && (s.memory.refresh != EMPTY && !p.Granted? && !p.Saved? ==> Unused(s, s.memory))
    && (Usable(s.disk) && !p.Granted? && !s.damaged ==> Unused(s, s.disk))
    && (s.damaged ==> s.disk.refresh in s.rotated && s.memory.refresh == EMPTY)
    && (forall t :: t in s.retired && t != EMPTY ==> s.retired[t] == 1)
  }

  ghost predicate Good(s: State) {
    && OneInside(s)
    && RequestsFit(s.requests, s.session.persisted)
    && PersistedFirst(s.session)
    && MemoryIsDisk(s.session, HolderPoint(s))
    && KnownTokens(s.session, HolderPoint(s))
  }

  /** A crash now leaves a usable pair on disk for which a refresh was granted: the grant is not saved yet, or it could
      neither be saved nor the old pair cleared. */
  ghost predicate LeavesRotated(s: State) {
    Usable(s.session.disk) && (HolderPoint(s).Granted? || s.session.damaged)
  }

  /** No process dies at such a point. */
  ghost predicate Careful(s: State, steps: seq<Step>)
    decreases |steps|
  {
    steps != [] ==> (steps[0].Crash? ==> !LeavesRotated(s)) && Careful(Next(s, steps[0]), steps[1..])
  }

  // ---------- Proofs ----------

  lemma OutsideRequest(s: Session, r: Request, action: Action)
    requires Bounded(r) && CarriesPersisted(r, s.persisted) && s.memory.access in s.persisted
    ensures
      var r' := Outside(s, r, action);
      && Bounded(r') && CarriesPersisted(r', s.persisted)
      && InSection(r'.point) == InSection(r.point) && (InSection(r.point) ==> r' == r)
  {
  }

  lemma OutsideKeeps(s: State, g: nat, action: Action)
    requires Good(s) && g in s.requests && !InsideAction(action)
    ensures Good(Next(s, Move(g, action)))
    ensures
      NotStale(s.session, HolderPoint(s))
      ==> NotStale(Next(s, Move(g, action)).session, HolderPoint(Next(s, Move(g, action))))
  {
    hide Outside, Bounded, NotStale, KnownTokens, MemoryIsDisk;
    var s' := Next(s, Move(g, action));
    OutsideRequest(s.session, s.requests[g], action);
    assert CarriesPersisted(s.requests[g], s.session.persisted);
    assert HolderPoint(s') == HolderPoint(s);
    SessionIgnoresSent(s.session, s'.session, HolderPoint(s));
  }

  lemma SessionIgnoresSent(s: Session, s': Session, p: Point)
    requires s' == s.(sent := s'.sent)
    ensures MemoryIsDisk(s, p) ==> MemoryIsDisk(s', p)
    ensures KnownTokens(s, p) ==> KnownTokens(s', p)
    ensures NotStale(s, p) ==> NotStale(s', p)
  {
  }

  lemma HolderIs(s: State, g: nat)
    requires OneInside(s) && g in s.requests && InSection(s.requests[g].point)
    ensures s.session.holder == Some(g) && HolderPoint(s) == s.requests[g].point
  {
  }

  lemma InsideRequest(s: Session, g: nat, r: Request, action: Action)
    requires Bounded(r) && CarriesPersisted(r, s.persisted) && (s.holder == Some(g) <==> InSection(r.point))
    ensures
      var (s', r') := Inside(s, g, r, action);
      && Bounded(r') && CarriesPersisted(r', s'.persisted) && s.persisted <= s'.persisted
      && (s'.holder == Some(g) <==> InSection(r'.point))
      && (s'.holder == s.holder || (s.holder in {None, Some(g)} && s'.holder in {None, Some(g)}))
      && (!InSection(r.point) && !action.Acquire? ==> s' == s && r' == r)
  {
  }

  lemma InsidePersistedFirst(s: Session, g: nat, r: Request, action: Action)
    requires PersistedFirst(s) && (r.point.Saved? ==> r.point.pair == s.disk)
    ensures PersistedFirst(Inside(s, g, r, action).0)
  {
  }

  /** Where the critical section stands after a step of its request. */
  function PointAfter(s: Session, g: nat, r: Request, action: Action): Point {
    var (s', r') := Inside(s, g, r, action);
    if s'.holder == Some(g) then r'.point else Done
  }

  lemma InsideMemory(s: Session, g: nat, r: Request, action: Action)
    requires s.holder == Some(g) && MemoryIsDisk(s, r.point)
    ensures MemoryIsDisk(Inside(s, g, r, action).0, PointAfter(s, g, r, action))
  {
  }

  lemma InsideTokens(s: Session, g: nat, r: Request, action: Action)
    requires s.holder == Some(g) && MemoryIsDisk(s, r.point) && KnownTokens(s, r.point)
    ensures KnownTokens(Inside(s, g, r, action).0, PointAfter(s, g, r, action))
  {
    hide KnownTokens;
    if action.Answer? && r.point.Asking? {
      AnswerTokens(s, g, r, action.reply);
    } else {
      OtherTokens(s, g, r, action);
    }
  }

  lemma AnswerTokens(s: Session, g: nat, r: Request, reply: Reply)
    requires s.holder == Some(g) && r.point.Asking? && MemoryIsDisk(s, r.point) && KnownTokens(s, r.point)
    ensures KnownTokens(Inside(s, g, r, Answer(reply)).0, PointAfter(s, g, r, Answer(reply)))
  {
  }

  lemma OtherTokens(s: Session, g: nat, r: Request, action: Action)
    requires s.holder == Some(g) && MemoryIsDisk(s, r.point) && KnownTokens(s, r.point)
    requires !(action.Answer? && r.point.Asking?)
    ensures KnownTokens(Inside(s, g, r, action).0, PointAfter(s, g, r, action))
  {
  }

  lemma InsideFreshness(s: Session, g: nat, r: Request, action: Action)
    requires s.holder == Some(g) && MemoryIsDisk(s, r.point) && KnownTokens(s, r.point) && NotStale(s, r.point)
    ensures NotStale(Inside(s, g, r, action).0, PointAfter(s, g, r, action))
  {
  }

  lemma InsideSession(s: Session, g: nat, r: Request, action: Action)
    requires s.holder == Some(g) && MemoryIsDisk(s, r.point) && KnownTokens(s, r.point)
    ensures
      var (s', r') := Inside(s, g, r, action);
      var p := if s'.holder == Some(g) then r'.point else Done;
      MemoryIsDisk(s', p) && KnownTokens(s', p) && (NotStale(s, r.point) ==> NotStale(s', p))
  {
    hide Inside, MemoryIsDisk, KnownTokens, NotStale;
    InsideMemory(s, g, r, action);
    InsideTokens(s, g, r, action);
    if NotStale(s, r.point) {
      InsideFreshness(s, g, r, action);
    }
  }

  lemma InsideKeeps(s: State, g: nat, action: Action)
    requires Good(s) && g in s.requests && InsideAction(action)
    ensures Good(Next(s, Move(g, action)))
    ensures
      NotStale(s.session, HolderPoint(s))
      ==> NotStale(Next(s, Move(g, action)).session, HolderPoint(Next(s, Move(g, action))))
  {
    hide Inside, Bounded, NotStale, KnownTokens, MemoryIsDisk;
    var r, s' := s.requests[g], Next(s, Move(g, action));
    assert CarriesPersisted(r, s.session.persisted);
    InsideRequest(s.session, g, r, action);
    if InSection(r.point) {
      HolderIs(s, g);
      MemorySaved(s.session, r.point);
      InsidePersistedFirst(s.session, g, r, action);
      InsideSession(s.session, g, r, action);
    } else {
      NoSection(s.session, g, r, action);
      if s' != s {
        HolderDoesNotMatter(s.session, s'.session, s'.requests[g].point);
      }
    }
    CarriesLater(s.requests, s.session.persisted, s'.session.persisted);
  }

  lemma MemorySaved(s: Session, p: Point)
    requires MemoryIsDisk(s, p)
    ensures p.Saved? ==> p.pair == s.disk
  {
  }

  lemma CarriesLater(requests: map<nat, Request>, persisted: set<Token>, persisted': set<Token>)
    requires RequestsFit(requests, persisted) && persisted <= persisted'
    ensures RequestsFit(requests, persisted')
  {
  }

  /** Taking the free mutex changes nothing but its holder. */
  lemma NoSection(s: Session, g: nat, r: Request, action: Action)
    requires !InSection(r.point) && InsideAction(action)
    ensures
      var (s', r') := Inside(s, g, r, action);
      || (s' == s && r' == r)
      || (s.holder == None && s' == s.(holder := Some(g)) && r'.point.Holding?)
  {
  }

  lemma HolderDoesNotMatter(s: Session, s': Session, q: Point)
    requires s' == s.(holder := s'.holder) && q.Holding?
    ensures MemoryIsDisk(s, Done) ==> MemoryIsDisk(s', q)
    ensures KnownTokens(s, Done) ==> KnownTokens(s', q)
    ensures NotStale(s, Done) ==> NotStale(s', q)
  {
  }

  lemma CrashKeeps(s: State)
    requires Good(s)
    ensures Good(Next(s, Crash))
    ensures NotStale(s.session, HolderPoint(s)) && !LeavesRotated(s) ==> NotStale(Next(s, Crash).session, Done)
    ensures HolderPoint(Next(s, Crash)) == Done
  {
  }

  lemma BeginKeeps(s: State, g: nat)
    requires Good(s)
    ensures Good(Next(s, Begin(g))) && HolderPoint(Next(s, Begin(g))) == HolderPoint(s)
    ensures Next(s, Begin(g)).session == s.session
  {
    hide NotStale, KnownTokens, MemoryIsDisk;
    assert HolderPoint(Next(s, Begin(g))) == HolderPoint(s);
  }

  /** Every step keeps the invariants, and every step but a crash at the wrong point keeps the tokens in use fresh. */
  lemma StepKeepsGood(s: State, step: Step)
    requires Good(s)
    ensures Good(Next(s, step))
    ensures
      NotStale(s.session, HolderPoint(s)) && (step.Crash? ==> !LeavesRotated(s))
      ==> NotStale(Next(s, step).session, HolderPoint(Next(s, step)))
  {
    hide Good, Inside, Outside, Restarted, NotStale, LeavesRotated, HolderPoint;
    match step
    case Crash => CrashKeeps(s);
    case Begin(g) => BeginKeeps(s, g);
    case Move(g, action) =>
      if g in s.requests {
        if InsideAction(action) {
          InsideKeeps(s, g, action);
        } else {
          OutsideKeeps(s, g, action);
        }
      }
  }

  lemma {:induction false} GoodOverRuns(s: State, steps: seq<Step>)
    requires Good(s)
    ensures Good(RunAll(s, steps))
    ensures
      NotStale(s.session, HolderPoint(s)) && Careful(s, steps)
      ==> NotStale(RunAll(s, steps).session, HolderPoint(RunAll(s, steps)))
    decreases |steps|
  {
    hide Good, Next, NotStale, LeavesRotated, HolderPoint;
    if steps != [] {
      StepKeepsGood(s, steps[0]);
      GoodOverRuns(Next(s, steps[0]), steps[1..]);
    }
  }

  lemma OpenedIsGood(disk: Pair)
    ensures Good(Opened(disk)) && NotStale(Opened(disk).session, HolderPoint(Opened(disk)))
  {
  }

  // ---------- What runs guarantee ----------

  lemma ReachedIsGood(disk: Pair, steps: seq<Step>)
    ensures Good(RunAll(Opened(disk), steps))
    ensures
      var s := RunAll(Opened(disk), steps);
      Careful(Opened(disk), steps) ==> NotStale(s.session, HolderPoint(s))
  {
    hide Good, NotStale, HolderPoint, RunAll, Careful, Opened;
    OpenedIsGood(disk);
    GoodOverRuns(Opened(disk), steps);
  }

  /** Whenever the mutex is free, a usable refresh token in memory belongs to the pair on disk; and no access token is
      ever sent that was not on disk before. Crashes are allowed anywhere. */
  lemma PersistedBeforeUse(disk: Pair, steps: seq<Step>)
    ensures
      var s := RunAll(Opened(disk), steps).session;
      && (s.holder == None && s.memory.refresh != EMPTY ==> s.memory == s.disk)
      && s.sent <= s.persisted
  {
    ReachedIsGood(disk, steps);
  }

  /** One call of send makes at most two sends and two refreshes. */
  lemma AtMostTwice(disk: Pair, steps: seq<Step>, g: nat)
    ensures
      var requests := RunAll(Opened(disk), steps).requests;
      g in requests ==> requests[g].sends <= 2 && requests[g].asks <= 2
  {
    hide NotStale, KnownTokens, MemoryIsDisk, PersistedFirst, OneInside;
    ReachedIsGood(disk, steps);
    var requests := RunAll(Opened(disk), steps).requests;
    assert g in requests ==> Bounded(requests[g]);
  }

  /** While processes run one at a time and none dies at the wrong point, a spent refresh token is presented exactly
      when the reply to an earlier refresh with it was lost; and no access token is refreshed twice, however many
      requests found it expired. */
  lemma RefreshedOnce(disk: Pair, steps: seq<Step>, g: nat)
    requires Careful(Opened(disk), steps)
    ensures
      var s := RunAll(Opened(disk), steps);
      && (g in s.requests && s.requests[g].point.Asking? ==>
            var t := s.requests[g].point.token;
            t !in s.session.rotated && (t in s.session.Spent() <==> t in s.session.lost))
      && (forall t :: t != EMPTY ==> s.session.retired[t] <= 1)
  {
    hide RunAll, Careful, Opened;
    ReachedIsGood(disk, steps);
    var s := RunAll(Opened(disk), steps);
    if g in s.requests && s.requests[g].point.Asking? {
      HolderIs(s, g);
    }
  }

  /** The next process starts on a spent token exactly when the pair on disk is usable and the reply to a refresh with
      it was lost, or the crash falls between the server's grant and the saving of the new pair, or the new pair could
      be neither saved nor the old one cleared. */
  lemma SpentAfterRestart(disk: Pair, steps: seq<Step>)
    requires Careful(Opened(disk), steps)
    ensures
      var s := RunAll(Opened(disk), steps);
      var refresh := Next(s, Crash).session.memory.refresh;
      && (refresh in s.session.rotated <==> LeavesRotated(s))
      && (refresh in s.session.Spent() <==>
            Usable(s.session.disk) && (s.session.disk.refresh in s.session.lost || LeavesRotated(s)))
  {
    hide RunAll, Careful, Opened;
    ReachedIsGood(disk, steps);
    var s := RunAll(Opened(disk), steps);
    if HolderPoint(s).Granted? {
      assert s.session.memory == s.session.disk;
    }
  }

  /** A request that finds its token expiring, up to the call of the server. */
  function UpToAsking(g: nat): seq<Step> {
    [Begin(g), Move(g, Snapshot), Move(g, CheckExpiry(true)), Move(g, Acquire), Move(g, Inspect(true))]
  }

  lemma OneStep(s: State, step: Step, rest: seq<Step>)
    ensures RunAll(s, [step] + rest) == RunAll(Next(s, step), rest)
  {
    assert ([step] + rest)[1..] == rest;
  }

  lemma {:induction false} RunAllJoin(s: State, a: seq<Step>, b: seq<Step>)
    ensures RunAll(s, a + b) == RunAll(RunAll(s, a), b)
    decreases |a|
  {
    hide Next;
    if a == [] {
      assert a + b == b;
    } else {
      assert (a + b)[1..] == a[1..] + b;
      RunAllJoin(Next(s, a[0]), a[1..], b);
    }
  }

  lemma AsksWithStoredToken(s: State, g: nat)
    requires g !in s.requests && s.session.holder == None && s.session.memory.refresh != EMPTY
    ensures
      RunAll(s, UpToAsking(g))
      == State(s.session.(holder := Some(g)), s.requests[g := Request(Asking(s.session.memory.refresh, false), 0, 1)])
  {
    hide RunAll;
    var steps := UpToAsking(g);
    assert steps == [steps[0]] + ([steps[1]] + ([steps[2]] + ([steps[3]] + ([steps[4]] + []))));
    var s1 := Next(s, steps[0]);
    var s2 := Next(s1, steps[1]);
    var s3 := Next(s2, steps[2]);
    var s4 := Next(s3, steps[3]);
    OneStep(s, steps[0], [steps[1]] + ([steps[2]] + ([steps[3]] + ([steps[4]] + []))));
    OneStep(s1, steps[1], [steps[2]] + ([steps[3]] + ([steps[4]] + [])));
    OneStep(s2, steps[2], [steps[3]] + ([steps[4]] + []));
    OneStep(s3, steps[3], [steps[4]] + []);
    OneStep(s4, steps[4], []);
    RunNothing(Next(s4, steps[4]));
  }

  lemma RunNothing(s: State)
    ensures RunAll(s, []) == s
  {
  }

  /** The comment in refreshAccessToken excludes this: the pair is saved only after the server has rotated, so a crash
      in between leaves the rotated token on disk, and the next process presents it. */
  lemma CrashLeavesRotatedToken(access: Token, refresh: Token)
    requires 0 < access < refresh
    ensures
      var asked := RunAll(Opened(Pair(access, refresh)), UpToAsking(0));
      var s := RunAll(Next(Next(asked, Move(0, Answer(Grant(true, true)))), Crash), UpToAsking(0));
      0 in s.requests && s.requests[0].point == Asking(refresh, false) && refresh in s.session.rotated
  {
    hide RunAll, UpToAsking;
    AsksWithStoredToken(Opened(Pair(access, refresh)), 0);
    var asked := RunAll(Opened(Pair(access, refresh)), UpToAsking(0));
    AsksWithStoredToken(Next(Next(asked, Move(0, Answer(Grant(true, true)))), Crash), 0);
  }

  /** After a lost reply the spent token is presented again: by the next request of the same process, and, without any
      crash at the wrong point, by the next process. */
  lemma LostReplyIsPresentedAgain(access: Token, refresh: Token)
    requires 0 < access < refresh
    ensures
      var asked := RunAll(Opened(Pair(access, refresh)), UpToAsking(0));
      var lost := Next(asked, Move(0, Answer(Failure(true))));
      var same, next := RunAll(lost, UpToAsking(1)), RunAll(Next(lost, Crash), UpToAsking(0));
      && !LeavesRotated(lost) && refresh in lost.session.Spent()
      && 1 in same.requests && same.requests[1].point == Asking(refresh, false)
      && 0 in next.requests && next.requests[0].point == Asking(refresh, false)
  {
    hide RunAll, UpToAsking;
    AsksWithStoredToken(Opened(Pair(access, refresh)), 0);
    var asked := RunAll(Opened(Pair(access, refresh)), UpToAsking(0));
    var lost := Next(asked, Move(0, Answer(Failure(true))));
    AsksWithStoredToken(lost, 1);
    AsksWithStoredToken(Next(lost, Crash), 0);
  }

  /** The mutex is never stuck: while some request is unfinished, some request can move. */
  lemma SomeoneCanMove(disk: Pair, steps: seq<Step>, g: nat)
    requires g in RunAll(Opened(disk), steps).requests && !RunAll(Opened(disk), steps).requests[g].point.Done?
    ensures exists h, action :: Next(RunAll(Opened(disk), steps), Move(h, action)) != RunAll(Opened(disk), steps)
  {
    var s := RunAll(Opened(disk), steps);
    ReachedIsGood(disk, steps);
    var h := if s.session.holder.Some? then s.session.holder.value else g;
    var p := s.requests[h].point;
    var action :=
      match p
      case Starting => Snapshot
      case Checking(_) => CheckExpiry(false)
      case Waiting(_, _) => Acquire
      case Holding(_, _) => Inspect(false)
      case Asking(_, _) => Answer(Failure(false))
      case Granted(_, _) => Persist(false, false)
      case Saved(_, _) => Install
      case Resuming(_) => Resume
      case Sending(_, _) => Send(false)
      case Challenged(_) => CheckRetry
      case Done => Snapshot;
    MoveChangesPoint(s, h, action, p);
  }

  lemma MoveChangesPoint(s: State, h: nat, action: Action, p: Point)
    requires h in s.requests && s.requests[h].point == p
    requires
      match p
      case Starting => s.session.holder.None? && action == Snapshot
      case Checking(_) => s.session.holder.None? && action == CheckExpiry(false)
      case Waiting(_, _) => s.session.holder.None? && action == Acquire
      case Holding(_, _) => action == Inspect(false)
      case Asking(_, _) => action == Answer(Failure(false))
      case Granted(_, _) => action == Persist(false, false)
      case Saved(_, _) => action == Install
      case Resuming(_) => s.session.holder.None? && action == Resume
      case Sending(_, _) => action == Send(false)
      case Challenged(_) => s.session.holder.None? && action == CheckRetry
      case Done => false
    ensures Next(s, Move(h, action)) != s
  {
    assert Next(s, Move(h, action)).requests[h].point != p;
  }

  // ---------- The client object ----------

  /** What one uninterrupted pass through the critical section does. */
  function CriticalSection(s: Session, g: nat, r: Request, soon: bool, reply: Reply, saved: bool,
                           cleared: bool): (Session, Request)
  {
    var (s1, r1) := Inside(s, g, r, Inspect(soon));
    var (s2, r2) := Inside(s1, g, r1, Answer(reply));
    var (s3, r3) := Inside(s2, g, r2, Persist(saved, cleared));
    Inside(s3, g, r3, Install)
  }

  /** The same pass as one case distinction on what the server and the file system answer. */
  function Pass(s: Session, failed: Token, soon: bool, reply: Reply, saved: bool, cleared: bool): (Session, bool) {
    if s.memory.access != failed && !soon then (s.(holder := None), true)
    else if s.memory.refresh == EMPTY then (s.(holder := None), false)
    else
      var end := s.(memory := Forgotten(), disk := if cleared then Forgotten() else s.disk, holder := None);
      match reply
      case Reject(_) => (end, false)
      case Failure(served) => (s.(lost := s.lost + if served then {s.memory.refresh} else {}, holder := None), false)
      case Grant(_, _) =>
        var asked := end.(rotated := s.rotated + {s.memory.refresh}, retired := s.retired + multiset{s.memory.access},
                          issued := s.issued + 2);
        var pair := Issue(s, reply);
        if saved then
          (asked.(memory := pair, disk := pair, persisted := s.persisted + {pair.access}, damaged := false), true)
        else (asked.(damaged := !cleared), false)
  }

  lemma PassIsCriticalSection(s: Session, g: nat, r: Request, soon: bool, reply: Reply, saved: bool, cleared: bool)
    requires r.point.Holding? && (reply.Reject? ==> reply.cleared == cleared)
    ensures
      var (s', r') := CriticalSection(s, g, r, soon, reply, saved, cleared);
      var (s'', on) := Pass(s, r.point.failed, soon, reply, saved, cleared);
      s' == s'' && r'.point == if on then Resuming(r.point.retry) else Done
  {
  }

  // ---------- The second chance ----------

  /** Whoever wants to read the tokens, or to change them, waits for the mutex; only sending does not. */
  lemma MutexMakesWait(s: State, g: nat, action: Action)
    requires s.session.holder.Some? && g in s.requests && (action.Acquire? || !InsideAction(action)) && !action.Send?
    ensures Next(s, Move(g, action)) == s
  {
    assert s.requests[g := s.requests[g]] == s.requests;
  }

  /** A request without an expiring token, up to the answer to its first sending. */
  function UpToSending(g: nat, challenged: bool): seq<Step> {
    [Begin(g), Move(g, Snapshot), Move(g, CheckExpiry(false)), Move(g, Send(challenged))]
  }

  function Critical(g: nat, soon: bool, reply: Reply, saved: bool, cleared: bool): seq<Step> {
    [Move(g, Inspect(soon)), Move(g, Answer(reply)), Move(g, Persist(saved, cleared)), Move(g, Install)]
  }

  /** What a challenged request goes through when nobody interrupts it. */
  function SecondChance(g: nat, soon: bool, reply: Reply, saved: bool, cleared: bool, challenged: bool): seq<Step> {
    [Move(g, CheckRetry), Move(g, Acquire)]
    + (Critical(g, soon, reply, saved, cleared) + [Move(g, Resume), Move(g, Send(challenged))])
  }

  lemma TwoSteps(s: State, a: Step, b: Step)
    ensures RunAll(s, [a, b]) == Next(Next(s, a), b)
  {
    hide Next;
    assert [a, b] == [a] + ([b] + []);
    OneStep(s, a, [b] + []);
    OneStep(Next(s, a), b, []);
    RunNothing(Next(Next(s, a), b));
  }

  lemma FourSteps(s: State, a: Step, b: Step, c: Step, d: Step)
    ensures RunAll(s, [a, b, c, d]) == Next(Next(Next(Next(s, a), b), c), d)
  {
    hide Next;
    assert [a, b, c, d] == [a, b] + [c, d];
    RunAllJoin(s, [a, b], [c, d]);
    TwoSteps(s, a, b);
    TwoSteps(Next(Next(s, a), b), c, d);
  }

  lemma MovesInside(s: State, g: nat, action: Action)
    requires g in s.requests && InsideAction(action)
    ensures
      var (session, r) := Inside(s.session, g, s.requests[g], action);
      Next(s, Move(g, action)) == State(session, s.requests[g := r])
  {
  }

  lemma CriticalRuns(s: State, g: nat, soon: bool, reply: Reply, saved: bool, cleared: bool)
    requires g in s.requests
    ensures
      var (session, r) := CriticalSection(s.session, g, s.requests[g], soon, reply, saved, cleared);
      RunAll(s, Critical(g, soon, reply, saved, cleared)) == State(session, s.requests[g := r])
  {
    hide Inside, Next, RunAll;
    FourSteps(s, Move(g, Inspect(soon)), Move(g, Answer(reply)), Move(g, Persist(saved, cleared)), Move(g, Install));
    MovesInside(s, g, Inspect(soon));
    var s1 := Next(s, Move(g, Inspect(soon)));
    MovesInside(s1, g, Answer(reply));
    var s2 := Next(s1, Move(g, Answer(reply)));
    MovesInside(s2, g, Persist(saved, cleared));
    var s3 := Next(s2, Move(g, Persist(saved, cleared)));
    MovesInside(s3, g, Install);
  }

  /** The pass asks the server at most once and sends nothing. */
  lemma PassCounts(s: Session, g: nat, r: Request, soon: bool, reply: Reply, saved: bool, cleared: bool)
    requires r.point.Holding?
    ensures
      var r' := CriticalSection(s, g, r, soon, reply, saved, cleared).1;
      && r'.sends == r.sends
      && r'.asks
         == r.asks + if s.memory.refresh != EMPTY && (s.memory.access == r.point.failed || soon) then 1 else 0
  {
  }

  /** A request that is challenged refreshes once, unless somebody else has meanwhile, and is sent again with the token
      then in memory; if the refresh fails it ends without being sent again. */
  lemma ChallengedGoesOn(s: State, g: nat, token: Token, soon: bool, reply: Reply, saved: bool, cleared: bool,
                         challenged: bool)
    requires g in s.requests && s.requests[g].point == Challenged(token)
    requires s.session.holder == None && s.session.memory.refresh != EMPTY
    requires reply.Reject? ==> reply.cleared == cleared
    ensures
      var r := s.requests[g];
      var s' := RunAll(s, SecondChance(g, soon, reply, saved, cleared, challenged));
      var (session, on) := Pass(s.session, token, soon, reply, saved, cleared);
      var asks := if s.session.memory.access == token || soon then 1 else 0;
      && s'.requests == s.requests[g := Request(Done, r.sends + if on then 1 else 0, r.asks + asks)]
      && s'.session
         == if on && session.memory.access != EMPTY then session.(sent := session.sent + {session.memory.access})
            else session
  {
    hide RunAll, CriticalSection, Inside, Pass, Critical;
    var r := s.requests[g];
    var s1 := State(s.session.(holder := Some(g)), s.requests[g := r.(point := Holding(token, true))]);
    TwoSteps(s, Move(g, CheckRetry), Move(g, Acquire));
    Enters(s, g, token);
    var rest := [Move(g, Resume), Move(g, Send(challenged))];
    RunAllJoin(s, [Move(g, CheckRetry), Move(g, Acquire)], Critical(g, soon, reply, saved, cleared) + rest);
    RunAllJoin(s1, Critical(g, soon, reply, saved, cleared), rest);
    CriticalRuns(s1, g, soon, reply, saved, cleared);
    var r1 := s1.requests[g];
    PassIsCriticalSection(s1.session, g, r1, soon, reply, saved, cleared);
    PassCounts(s1.session, g, r1, soon, reply, saved, cleared);
    PassIgnoresHolder(s.session, s1.session, token, soon, reply, saved, cleared);
    var (session, r2) := CriticalSection(s1.session, g, r1, soon, reply, saved, cleared);
    var s2 := State(session, s1.requests[g := r2]);
    TwoSteps(s2, Move(g, Resume), Move(g, Send(challenged)));
    Leaves(s2, g, challenged);
  }

  lemma Enters(s: State, g: nat, token: Token)
    requires g in s.requests && s.requests[g].point == Challenged(token)
    requires s.session.holder == None && s.session.memory.refresh != EMPTY
    ensures
      Next(Next(s, Move(g, CheckRetry)), Move(g, Acquire))
      == State(s.session.(holder := Some(g)), s.requests[g := s.requests[g].(point := Holding(token, true))])
  {
  }

  lemma PassIgnoresHolder(s: Session, s': Session, failed: Token, soon: bool, reply: Reply, saved: bool, cleared: bool)
    requires s' == s.(holder := s'.holder)
    ensures Pass(s, failed, soon, reply, saved, cleared) == Pass(s', failed, soon, reply, saved, cleared)
    ensures Pass(s, failed, soon, reply, saved, cleared).0.holder == None
  {
  }

  lemma Leaves(s: State, g: nat, challenged: bool)
    requires g in s.requests && s.session.holder == None && s.requests[g].point in {Resuming(true), Done}
    ensures
      var r, access := s.requests[g], s.session.memory.access;
      var s' := Next(Next(s, Move(g, Resume)), Move(g, Send(challenged)));
      if r.point == Done then s' == s
      else && s'.requests == s.requests[g := r.(point := Done, sends := r.sends + 1)]
           && s'.session == if access != EMPTY then s.session.(sent := s.session.sent + {access}) else s.session
  {
  }

  /** A request whose token is not about to expire is sent with it, and is finished unless it is challenged; that leads
      nowhere without a refresh token. */
  lemma SendsAtOnce(s: State, g: nat, challenged: bool)
    requires g !in s.requests && s.session.holder == None
    ensures
      var s' := RunAll(s, UpToSending(g, challenged));
      var access := s.session.memory.access;
      && s'.requests == s.requests[g := Request(if challenged then Challenged(access) else Done, 1, 0)]
      && s'.session == (if access != EMPTY then s.session.(sent := s.session.sent + {access}) else s.session)
      && (challenged && s.session.memory.refresh == EMPTY ==>
            Next(s', Move(g, CheckRetry)) == s'.(requests := s.requests[g := Request(Done, 1, 0)]))
  {
    hide RunAll;
    FourSteps(s, Begin(g), Move(g, Snapshot), Move(g, CheckExpiry(false)), Move(g, Send(challenged)));
    var s2 := Next(Next(s, Begin(g)), Move(g, Snapshot));
    assert s2 == s.(requests := s.requests[g := Request(Checking(s.session.memory.access), 0, 0)]);
    var s3 := Next(s2, Move(g, CheckExpiry(false)));
    assert s3 == s.(requests := s.requests[g := Request(Sending(s.session.memory.access, false), 0, 0)]);
  }

  datatype Outcome = Refreshed | SessionExpired | NotRefreshed | NotSaved

  /** The client's fields, the configuration file, and the server's side of the session. */
  class Client {
    var accessToken: Token
    var refreshToken: Token
    var disk: Pair
    var server: Session

    /** The server's part of `server`, and the client's own fields in place of the rest. */
    function Contents(): Session
      reads this
    {
      server.(memory := Pair(accessToken, refreshToken), disk := disk)
    }

    constructor (s: Session)
      ensures Contents() == s
    {
      accessToken, refreshToken := s.memory.access, s.memory.refresh;
      disk, server := s.disk, s;
    }

    method Ask(reply: Reply) returns (tokens: Option<Pair>)
      modifies this`server
      ensures
        match reply
        case Grant(_, _) =>
          && tokens == Some(Issue(old(server), reply))
          && server == old(server).(rotated := old(server).rotated + {refreshToken},
                                    retired := old(server).retired + multiset{accessToken},
                                    issued := old(server).issued + 2)
        case Reject(_) => tokens == None && server == old(server)
        case Failure(served) =>
          tokens == None && server == old(server).(lost := old(server).lost + if served then {refreshToken} else {})
    {
      match reply
      case Grant(_, _) =>
        tokens := Some(Issue(server, reply));
        server := server.(rotated := server.rotated + {refreshToken}, retired := server.retired + multiset{accessToken},
                          issued := server.issued + 2);
      case Reject(_) => tokens := None;
      case Failure(served) =>
        tokens := None;
        server := server.(lost := server.lost + if served then {refreshToken} else {});
    }

    /** refreshAccessToken, called with the mutex held by g: the fields end as the steps of the critical section leave
        them, and the request goes on exactly when it returns Refreshed. */
    method RefreshAccessToken(g: nat, ghost r: Request, failed: Token, soon: bool, reply: Reply, saved: bool,
                              cleared: bool)
      returns (o: Outcome)
      requires server.holder == Some(g) && r.point.Holding? && r.point.failed == failed
      requires reply.Reject? ==> reply.cleared == cleared
      modifies this
      ensures Contents() == CriticalSection(old(Contents()), g, r, soon, reply, saved, cleared).0
      ensures
        var p := CriticalSection(old(Contents()), g, r, soon, reply, saved, cleared).1.point;
        p == if o == Refreshed then Resuming(r.point.retry) else Done
      ensures
        var already := old(accessToken) != failed && !soon;
        var asked := !already && old(refreshToken) != EMPTY;
        && (o == Refreshed <==> already || (asked && reply.Grant? && saved))
        && (o == SessionExpired <==> !already && (old(refreshToken) == EMPTY || reply.Reject?))
        && (o == NotRefreshed <==> asked && reply.Failure?)
        && (o == NotSaved <==> asked && reply.Grant? && !saved)
    {
      PassIsCriticalSection(Contents(), g, r, soon, reply, saved, cleared);
      hide CriticalSection;
      if accessToken != failed && !soon {
        server := server.(holder := None);
        return Refreshed;
      }
      if refreshToken == EMPTY {
        server := server.(holder := None);
        return SessionExpired;
      }
      var tokens := Ask(reply);
      if tokens.None? {
        if reply.Reject? {
          Forget(cleared);
          server := server.(holder := None);
          return SessionExpired;
        }
        server := server.(holder := None);
        return NotRefreshed;
      }
      if !saved {
        Forget(cleared);
        server := server.(holder := None, damaged := !cleared);
        return NotSaved;
      }
      disk := tokens.value;
      server := server.(persisted := server.persisted + {tokens.value.access}, damaged := false);
      accessToken := tokens.value.access;
      refreshToken := tokens.value.refresh;
      server := server.(holder := None);
      return Refreshed;
    }

    /** The tokens are dropped from memory whether or not the file could be cleared. */
    method Forget(cleared: bool)
      modifies this`accessToken, this`refreshToken, this`disk
      ensures accessToken == EMPTY && refreshToken == EMPTY && disk == if cleared then Forgotten() else old(disk)
    {
      if cleared {
        disk := Forgotten();
      }
      accessToken := EMPTY;
      refreshToken := EMPTY;
    }
  }
}
