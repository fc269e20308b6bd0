/** The sliding-window limiter: a sorted set that forgets old requests and expires as a whole. */
module RateLimit {

  /** A random member name; two requests never share one. */
  type Token = nat

  /** A request samples `now` in the application and runs its script at time `at` on the server. */
  datatype Request = Request(now: real, at: real, token: Token)

  datatype Reply = Reply(accepted: bool, count: nat, oldest: real)

  /** The sorted set under one key and the time at which the key expires. */
  datatype Window = Window(slots: map<Token, real>, deadline: real)

  predicate IsOldest(slots: map<Token, real>, t: Token) {
    t in slots && forall u :: u in slots ==> slots[t] <= slots[u]
  }

  lemma {:induction false} OldestExists(slots: map<Token, real>)
    requires slots != map[]
    ensures exists t :: IsOldest(slots, t)
    decreases |slots|
  {
    var t :| t in slots;
    var rest := slots - {t};
    assert rest.Keys == slots.Keys - {t};
    if rest == map[] {
      OnlyOneIsOldest(slots, t);
    } else {
      OldestExists(rest);
      var r :| IsOldest(rest, r);
      OlderOfTwo(slots, t, r);
    }
  }

  lemma OnlyOneIsOldest(slots: map<Token, real>, t: Token)
    requires t in slots && slots - {t} == map[]
    ensures IsOldest(slots, t)
  {
    forall u | u in slots ensures u == t {
      assert u !in slots - {t};
    }
  }

  lemma OlderOfTwo(slots: map<Token, real>, t: Token, r: Token)
    requires t in slots && IsOldest(slots - {t}, r)
    ensures IsOldest(slots, if slots[t] <= slots[r] then t else r)
  {
    forall u | u in slots ensures u == t || slots[r] <= slots[u] {
      assert u != t ==> u in slots - {t};
    }
  }

  /** The lowest score of a set, or 0 if it is empty. */
  ghost function Oldest(slots: map<Token, real>): real {
    if slots == map[] then 0.0
    else
      OldestExists(slots);
      var t :| IsOldest(slots, t);
      slots[t]
  }

  lemma OldestIsHeld(slots: map<Token, real>)
    requires slots != map[]
    ensures exists t :: IsOldest(slots, t) && slots[t] == Oldest(slots)
  {
    OldestExists(slots);
  }

  /** What is left of a key that may have expired. */
  function Live(w: Window, at: real): map<Token, real> {
    if at >= w.deadline then map[] else w.slots
  }

  /** Removal by score from 0 up to and including the start of the window. */
  function Prune(slots: map<Token, real>, start: real): (kept: map<Token, real>)
    ensures forall t :: t in kept <==> t in slots && !(0.0 <= slots[t] <= start)
    ensures forall t :: t in kept ==> kept[t] == slots[t]
  {
    slots - (set t | t in slots && 0.0 <= slots[t] <= start)
  }

  ghost function Evaluate(w: Window, r: Request, seconds: int, max: int): (Window, Reply) {
    var slots := Prune(Live(w, r.at), r.now - seconds as real);
    if |slots| >= max then (Window(slots, w.deadline), Reply(false, |slots|, Oldest(slots)))
    else (Window(slots[r.token := r.now], r.at + seconds as real), Reply(true, |slots| + 1, 0.0))
  }

  method FindOldest(slots: map<Token, real>) returns (score: real)
    ensures score == Oldest(slots)
  {
    if slots == map[] {
      return 0.0;
    }
    OldestExists(slots);
    var t :| IsOldest(slots, t);
    return slots[t];
  }

  /** The key of one caller, evaluated in place. */
  class SlidingWindow {
    var slots: map<Token, real>
    var deadline: real

    function State(): Window
      reads this
    {
      Window(slots, deadline)
    }

    method RunScript(r: Request, seconds: int, max: int) returns (reply: Reply)
      modifies this
      ensures (State(), reply) == Evaluate(old(State()), r, seconds, max)
    {
      hide Prune, Oldest, IsOldest;
      var live := if r.at >= deadline then map[] else slots;
      slots := Prune(live, r.now - seconds as real);
      if |slots| >= max {
        var oldest := FindOldest(slots);
        return Reply(false, |slots|, oldest);
      }
      reply := Reply(true, |slots| + 1, 0.0);
      slots := slots[r.token := r.now];
      deadline := r.at + seconds as real;
    }
  }

  // ---------- The limiter beside the history of everything it ever accepted ----------

  /** `accepts` is never pruned; `last` is the clock of the latest request, `top` that of the latest accept. */
  datatype History = History(w: Window, accepts: map<Token, real>, last: real, top: real)

  function Start(): History {
    History(Window(map[], 0.0), map[], 0.0, 0.0)
  }

  ghost function Next(h: History, r: Request, seconds: int, max: int): History {
    var (w, reply) := Evaluate(h.w, r, seconds, max);
    if reply.accepted then History(w, h.accepts[r.token := r.now], r.now, r.now)
    else History(w, h.accepts, r.now, h.top)
  }

  /** Accepts in the half-open interval of the given length that ends at x. */
  function InWindow(accepts: map<Token, real>, seconds: int, x: real): set<Token> {
    set t | t in accepts && x - seconds as real < accepts[t] <= x
  }

  /** The clock does not run backwards, tokens are fresh, and the key does not expire before its newest entry is old. */
  predicate Orderly(h: History, r: Request, seconds: int) {
    && h.last <= r.now
    && r.token !in h.accepts
    && (h.accepts != map[] && r.at >= h.w.deadline ==> r.now >= h.top + seconds as real)
  }

  ghost predicate OrderlyRun(h: History, rs: seq<Request>, seconds: int, max: int)
    decreases |rs|
  {
    rs != [] ==> Orderly(h, rs[0], seconds) && OrderlyRun(Next(h, rs[0], seconds, max), rs[1..], seconds, max)
  }

  ghost function After(h: History, rs: seq<Request>, seconds: int, max: int): History
    decreases |rs|
  {
    if rs == [] then h else After(Next(h, rs[0], seconds, max), rs[1..], seconds, max)
  }

  /** The set holds accepts only, and lacks only accepts that the window has left behind. */
  ghost predicate Kept(h: History, seconds: int) {
    && (forall t :: t in h.w.slots ==> t in h.accepts && h.accepts[t] == h.w.slots[t])
    && (forall t :: t in h.accepts ==> 0.0 <= h.accepts[t] <= h.top)
    && (forall t :: t in h.accepts && t !in h.w.slots ==> h.accepts[t] <= h.last - seconds as real)
    && 0.0 <= h.top <= h.last
  }

  /** No window of the given length holds more than the maximum. */
  ghost predicate Fair(accepts: map<Token, real>, seconds: int, max: int) {
    forall x: real :: |InWindow(accepts, seconds, x)| <= if max < 0 then 0 else max
  }

  lemma PrunedIsWindow(h: History, r: Request, seconds: int)
    requires Kept(h, seconds) && Orderly(h, r, seconds)
    ensures Prune(Live(h.w, r.at), r.now - seconds as real).Keys == InWindow(h.accepts, seconds, r.now)
  {
  }

  /** The decision is the one that the full history calls for. */
  lemma DecidesByHistory(h: History, r: Request, seconds: int, max: int)
    requires Kept(h, seconds) && Orderly(h, r, seconds)
    ensures
      var reply, inWindow := Evaluate(h.w, r, seconds, max).1, |InWindow(h.accepts, seconds, r.now)|;
      && (reply.accepted <==> inWindow < max)
      && reply.count == if reply.accepted then inWindow + 1 else inWindow
  {
    PrunedIsWindow(h, r, seconds);
    var slots := Prune(Live(h.w, r.at), r.now - seconds as real);
    assert |slots| == |slots.Keys|;
  }

  lemma NextKeeps(h: History, r: Request, seconds: int, max: int)
    requires Kept(h, seconds) && Orderly(h, r, seconds)
    ensures Kept(Next(h, r, seconds, max), seconds)
  {
    PrunedIsWindow(h, r, seconds);
  }

  lemma FairAt(accepts: map<Token, real>, seconds: int, max: int, x: real)
    requires Fair(accepts, seconds, max)
    ensures |InWindow(accepts, seconds, x)| <= if max < 0 then 0 else max
  {
  }

  lemma NextStaysFair(h: History, r: Request, seconds: int, max: int)
    requires Kept(h, seconds) && Orderly(h, r, seconds) && Fair(h.accepts, seconds, max)
    ensures Fair(Next(h, r, seconds, max).accepts, seconds, max)
  {
    hide Evaluate, Oldest;
    DecidesByHistory(h, r, seconds, max);
    var h' := Next(h, r, seconds, max);
    if Evaluate(h.w, r, seconds, max).1.accepted {
      assert h'.accepts == h.accepts[r.token := r.now] && 0 <= |InWindow(h.accepts, seconds, r.now)| < max;
      forall x: real ensures |InWindow(h'.accepts, seconds, x)| <= if max < 0 then 0 else max {
        if x < r.now {
          FairAt(h.accepts, seconds, max, x);
          assert InWindow(h'.accepts, seconds, x) == InWindow(h.accepts, seconds, x);
        } else {
          var before := InWindow(h.accepts, seconds, r.now);
          SubsetIsSmaller(InWindow(h'.accepts, seconds, x), before + {r.token});
        }
      }
    }
  }

  lemma {:induction false} SubsetIsSmaller<T>(a: set<T>, b: set<T>)
    requires a <= b
    ensures |a| <= |b|
    decreases a
  {
    if a != {} {
      var x :| x in a;
      SubsetIsSmaller(a - {x}, b - {x});
    }
  }

  /** Over every orderly run: each request is accepted exactly when fewer than `max` accepts lie in its window, and no
      window ever holds more than `max`. */
  lemma {:induction false} LimiterOverRuns(h: History, rs: seq<Request>, r: Request, seconds: int, max: int)
    requires Kept(h, seconds) && Fair(h.accepts, seconds, max)
    requires OrderlyRun(h, rs, seconds, max) && Orderly(After(h, rs, seconds, max), r, seconds)
    ensures
      var h' := After(h, rs, seconds, max);
      && (Evaluate(h'.w, r, seconds, max).1.accepted <==> |InWindow(h'.accepts, seconds, r.now)| < max)
      && Fair(h'.accepts, seconds, max)
      && Kept(h', seconds)
    decreases |rs|
  {
    hide Evaluate, Next, Kept, Fair, Orderly;
    if rs == [] {
      DecidesByHistory(h, r, seconds, max);
    } else {
      NextKeeps(h, rs[0], seconds, max);
      NextStaysFair(h, rs[0], seconds, max);
      LimiterOverRuns(Next(h, rs[0], seconds, max), rs[1..], r, seconds, max);
    }
  }

  // ---------- Which clocks are good enough ----------

  /** One step: while the set has lost only what the window has left behind, a decision differs from the history's
      exactly when the key expires under the request while its window is full. */
  lemma FirstWrongExactly(h: History, r: Request, seconds: int, max: int)
    requires Kept(h, seconds) && h.last <= r.now && r.token !in h.accepts
    ensures
      var accepted, called := Evaluate(h.w, r, seconds, max).1.accepted, |InWindow(h.accepts, seconds, r.now)| < max;
      accepted != called <==> r.at >= h.w.deadline && |InWindow(h.accepts, seconds, r.now)| >= max > 0
  {
    if r.at < h.w.deadline {
      DecidesByHistory(h, r, seconds, max);
    } else {
      assert Prune(map[], r.now - seconds as real).Keys == {};
    }
  }

  /** How long after its clock sample a request's script runs. */
  function Lag(r: Request): real {
    r.at - r.now
  }

  /** A clock that never runs backwards, and distinct tokens. */
  ghost predicate Forward(rs: seq<Request>) {
    && (forall i :: 0 <= i < |rs| ==> 0.0 <= rs[i].now)
    && (forall i, j :: 0 <= i < j < |rs| ==> rs[i].now <= rs[j].now && rs[i].token != rs[j].token)
  }

  /** In addition, lags that never grow. */
  ghost predicate Steady(rs: seq<Request>) {
    && Forward(rs)
    && (forall i, j :: 0 <= i < j < |rs| ==> Lag(rs[j]) <= Lag(rs[i]))
  }

  /** The lag of the newest accept, by which its key outlives its window. */
  function NewestLag(h: History, seconds: int): real {
    h.w.deadline - seconds as real - h.top
  }

  /** The given requests come after everything so far. */
  ghost predicate Later(h: History, rs: seq<Request>) {
    forall i :: 0 <= i < |rs| ==> h.last <= rs[i].now && rs[i].token !in h.accepts
  }

  /** And the newest accept lagged at least as much as they do. */
  ghost predicate Precedes(h: History, rs: seq<Request>, seconds: int) {
    && Later(h, rs)
    && (h.accepts != map[] ==> forall i :: 0 <= i < |rs| ==> Lag(rs[i]) <= NewestLag(h, seconds))
  }

  /** One request that lags no more than the newest accept is in order, whatever the lags before. */
  lemma SmallLagIsOrderly(h: History, r: Request, seconds: int)
    requires h.last <= r.now && r.token !in h.accepts
    requires h.accepts != map[] ==> Lag(r) <= NewestLag(h, seconds)
    ensures Orderly(h, r, seconds)
  {
  }

  lemma AcceptSetsLag(h: History, r: Request, seconds: int, max: int)
    ensures
      var h' := Next(h, r, seconds, max);
      && h'.last == r.now
      && ((h' == h.(w := h'.w, last := r.now) && h'.w.deadline == h.w.deadline)
          || (h'.accepts == h.accepts[r.token := r.now] && NewestLag(h', seconds) == Lag(r)))
  {
    hide Prune, Oldest;
  }

  lemma {:induction false} SteadyIsOrderly(h: History, rs: seq<Request>, seconds: int, max: int)
    requires Steady(rs) && Precedes(h, rs, seconds)
    ensures OrderlyRun(h, rs, seconds, max)
    decreases |rs|
  {
    hide Next, Orderly;
    if rs != [] {
      SmallLagIsOrderly(h, rs[0], seconds);
      AcceptSetsLag(h, rs[0], seconds, max);
      SteadyIsOrderly(Next(h, rs[0], seconds, max), rs[1..], seconds, max);
    }
  }

  lemma {:induction false} LastIsOrderly(h: History, rs: seq<Request>, r: Request, seconds: int, max: int)
    requires OrderlyRun(h, rs + [r], seconds, max)
    ensures OrderlyRun(h, rs, seconds, max) && Orderly(After(h, rs, seconds, max), r, seconds)
    decreases |rs|
  {
    hide Next, Orderly;
    if rs == [] {
      assert (rs + [r])[0] == r;
    } else {
      assert (rs + [r])[1..] == rs[1..] + [r];
      LastIsOrderly(Next(h, rs[0], seconds, max), rs[1..], r, seconds, max);
    }
  }

  /** From an empty key and with steady clocks, every request is accepted exactly when fewer than `max` accepts lie in
      its window, and no window ever holds more. */
  lemma LimiterOnSteadyClocks(rs: seq<Request>, r: Request, seconds: int, max: int)
    requires Steady(rs + [r])
    ensures
      var h := After(Start(), rs, seconds, max);
      && (Evaluate(h.w, r, seconds, max).1.accepted <==> |InWindow(h.accepts, seconds, r.now)| < max)
      && Fair(h.accepts, seconds, max)
  {
    hide Evaluate, After, OrderlyRun, Orderly, Fair, Kept;
    SteadyIsOrderly(Start(), rs + [r], seconds, max);
    LastIsOrderly(Start(), rs, r, seconds, max);
    StartIsFair(seconds, max);
    LimiterOverRuns(Start(), rs, r, seconds, max);
  }

  lemma StartIsFair(seconds: int, max: int)
    ensures Kept(Start(), seconds) && Fair(Start().accepts, seconds, max)
  {
    forall x: real ensures InWindow(Start().accepts, seconds, x) == {} {
    }
  }

  // ---------- Clocks in any order ----------

  /** The set holds accepts only, under their own times. */
  ghost predicate Recorded(h: History) {
    forall t :: t in h.w.slots ==> t in h.accepts && h.accepts[t] == h.w.slots[t] && 0.0 <= h.w.slots[t]
  }

  /** Fresh tokens and times since 1970 are all that is asked of a run. */
  ghost predicate AnyRun(h: History, rs: seq<Request>, seconds: int, max: int)
    decreases |rs|
  {
    rs != [] ==>
      && 0.0 <= rs[0].now && rs[0].token !in h.accepts
      && AnyRun(Next(h, rs[0], seconds, max), rs[1..], seconds, max)
  }

  lemma NextKeepsRecorded(h: History, r: Request, seconds: int, max: int)
    requires Recorded(h) && 0.0 <= r.now && r.token !in h.accepts
    ensures Recorded(Next(h, r, seconds, max))
  {
    hide Oldest;
  }

  lemma {:induction false} RecordedOverRuns(h: History, rs: seq<Request>, seconds: int, max: int)
    requires Recorded(h) && AnyRun(h, rs, seconds, max)
    ensures Recorded(After(h, rs, seconds, max))
    decreases |rs|
  {
    hide Recorded, Next;
    if rs != [] {
      NextKeepsRecorded(h, rs[0], seconds, max);
      RecordedOverRuns(Next(h, rs[0], seconds, max), rs[1..], seconds, max);
    }
  }

  /** Accepts in a request's window that the set no longer holds. */
  function Forgotten(h: History, r: Request, seconds: int): set<Token> {
    set t | t in InWindow(h.accepts, seconds, r.now) && t !in Live(h.w, r.at)
  }

  /** Accepts of the set whose time lies after the request's clock (and, for a negative length, its window's start). */
  function Ahead(h: History, r: Request, seconds: int): set<Token> {
    set t | t in Live(h.w, r.at) && h.w.slots[t] > r.now && h.w.slots[t] > r.now - seconds as real
  }

  lemma PruneKeeps(h: History, r: Request, seconds: int)
    requires Recorded(h)
    ensures
      var window, lost := InWindow(h.accepts, seconds, r.now), Forgotten(h, r, seconds);
      Prune(Live(h.w, r.at), r.now - seconds as real).Keys == (window - lost) + Ahead(h, r, seconds)
  {
  }

  lemma PruneCounts(h: History, r: Request, seconds: int)
    requires Recorded(h)
    ensures
      |Prune(Live(h.w, r.at), r.now - seconds as real)|
      == |InWindow(h.accepts, seconds, r.now)| - |Forgotten(h, r, seconds)| + |Ahead(h, r, seconds)|
  {
    PruneKeeps(h, r, seconds);
    var slots, window := Prune(Live(h.w, r.at), r.now - seconds as real), InWindow(h.accepts, seconds, r.now);
    var lost, ahead := Forgotten(h, r, seconds), Ahead(h, r, seconds);
    assert lost <= window && (window - lost) !! ahead by {
      hide Prune, Live;
    }
    hide *;
    assert window == (window - lost) + lost;
    assert |slots| == |slots.Keys|;
  }

  /** What the script counts after any run whatsoever: the accepts in the window, less those that the set has forgotten,
      plus those ahead of the request's clock. */
  lemma CountsOverRuns(rs: seq<Request>, r: Request, seconds: int, max: int)
    requires AnyRun(Start(), rs, seconds, max)
    ensures
      var h := After(Start(), rs, seconds, max);
      var counted := |InWindow(h.accepts, seconds, r.now)| - |Forgotten(h, r, seconds)| + |Ahead(h, r, seconds)|;
      var reply := Evaluate(h.w, r, seconds, max).1;
      (reply.accepted <==> counted < max) && reply.count == if reply.accepted then counted + 1 else counted
  {
    hide Recorded, Next, After, AnyRun;
    RecordedOverRuns(Start(), rs, seconds, max) by {
      assert Recorded(Start()) by { NothingRecorded(); }
    }
    PruneCounts(After(Start(), rs, seconds, max), r, seconds);
  }

  lemma NothingRecorded()
    ensures Recorded(Start())
  {
  }

  function Since(accepts: map<Token, real>, start: real): set<Token> {
    set t | t in accepts && accepts[t] > start
  }

  lemma SlotsAreSince(h: History, r: Request, seconds: int)
    requires Recorded(h)
    ensures Prune(Live(h.w, r.at), r.now - seconds as real).Keys <= Since(h.accepts, r.now - seconds as real)
  {
  }

  /** With clocks in any order the set can only forget: after any run, a rejection is warranted by the accepts after the
      start of the window. */
  lemma RejectionIsWarranted(rs: seq<Request>, r: Request, seconds: int, max: int)
    requires AnyRun(Start(), rs, seconds, max)
    ensures
      var h := After(Start(), rs, seconds, max);
      !Evaluate(h.w, r, seconds, max).1.accepted ==> |Since(h.accepts, r.now - seconds as real)| >= max
  {
    hide Recorded, Next, After, AnyRun, Oldest, Prune, Live, Since;
    NothingRecorded();
    RecordedOverRuns(Start(), rs, seconds, max);
    var h := After(Start(), rs, seconds, max);
    SlotsAreSince(h, r, seconds);
    var slots := Prune(Live(h.w, r.at), r.now - seconds as real);
    SubsetIsSmaller(slots.Keys, Since(h.accepts, r.now - seconds as real));
    assert |slots| == |slots.Keys|;
  }

  /** A request leaves a slot in place: the key has not expired, and the slot's time is in the window or ahead. */
  predicate Spares(h: History, r: Request, score: real, seconds: int) {
    r.at < h.w.deadline && r.now - seconds as real < score
  }

  ghost predicate AllSpare(h: History, rs: seq<Request>, score: real, seconds: int, max: int)
    decreases |rs|
  {
    rs != [] ==>
      && Spares(h, rs[0], score, seconds)
      && AllSpare(Next(h, rs[0], seconds, max), rs[1..], score, seconds, max)
  }

  lemma SlotStays(h: History, r: Request, t: Token, seconds: int, max: int)
    requires Recorded(h) && t in h.accepts && r.token != t
    ensures t in Next(h, r, seconds, max).accepts && Next(h, r, seconds, max).accepts[t] == h.accepts[t]
    ensures t in Next(h, r, seconds, max).w.slots <==> t in h.w.slots && Spares(h, r, h.accepts[t], seconds)
  {
    hide Oldest;
  }

  /** A slot is forgotten by the first request that does not spare it, and then for good. */
  lemma {:induction false} SlotSurvivesExactly(h: History, rs: seq<Request>, t: Token, seconds: int, max: int)
    requires Recorded(h) && t in h.accepts && AnyRun(h, rs, seconds, max)
    ensures
      var h' := After(h, rs, seconds, max);
      t in h'.w.slots <==> t in h.w.slots && AllSpare(h, rs, h.accepts[t], seconds, max)
    decreases |rs|
  {
    hide Recorded, Next, Spares;
    if rs != [] {
      NextKeepsRecorded(h, rs[0], seconds, max);
      SlotStays(h, rs[0], t, seconds, max);
      SlotSurvivesExactly(Next(h, rs[0], seconds, max), rs[1..], t, seconds, max);
    }
  }

  // ---------- Clocks that never run backwards, and keys that expire ----------

  ghost predicate Past(h: History) {
    0.0 <= h.last && forall t :: t in h.accepts ==> h.accepts[t] <= h.last
  }

  /** Some request, after the accept that the token stands for, ran at or after the key's deadline at that point. */
  ghost predicate Expired(h: History, rs: seq<Request>, t: Token, seconds: int, max: int)
    decreases |rs|
  {
    rs != [] &&
    ((t in h.accepts && rs[0].at >= h.w.deadline) || Expired(Next(h, rs[0], seconds, max), rs[1..], t, seconds, max))
  }

  /** The accepts in a request's window whose key has expired since, under the request itself or an earlier one. */
  ghost function ExpiredInWindow(rs: seq<Request>, r: Request, seconds: int, max: int): set<Token> {
    var h := After(Start(), rs, seconds, max);
    set t | t in InWindow(h.accepts, seconds, r.now) && Expired(Start(), rs + [r], t, seconds, max)
  }

  lemma ForwardStep(h: History, rs: seq<Request>, seconds: int, max: int)
    requires rs != [] && Forward(rs) && Later(h, rs) && Past(h)
    ensures
      var h' := Next(h, rs[0], seconds, max);
      Forward(rs[1..]) && Later(h', rs[1..]) && Past(h') && h'.last == rs[0].now && 0.0 <= rs[0].now
  {
    hide Prune, Oldest;
  }

  lemma {:induction false} ForwardOverRuns(h: History, rs: seq<Request>, r: Request, seconds: int, max: int)
    requires Forward(rs + [r]) && Later(h, rs + [r]) && Past(h)
    ensures AnyRun(h, rs, seconds, max)
    ensures Past(After(h, rs, seconds, max)) && After(h, rs, seconds, max).last <= r.now
    decreases |rs|
  {
    hide Next, Past, Forward, Later;
    if rs == [] {
      LaterThan(h, rs, r);
    } else {
      ForwardStep(h, rs + [r], seconds, max);
      assert (rs + [r])[0] == rs[0] && (rs + [r])[1..] == rs[1..] + [r];
      FirstIsFresh(h, rs + [r]);
      ForwardOverRuns(Next(h, rs[0], seconds, max), rs[1..], r, seconds, max);
    }
  }

  lemma LaterThan(h: History, rs: seq<Request>, r: Request)
    requires Later(h, rs + [r])
    ensures h.last <= r.now
  {
    assert (rs + [r])[|rs|] == r;
  }

  lemma FirstIsFresh(h: History, rs: seq<Request>)
    requires rs != [] && Later(h, rs) && Past(h)
    ensures 0.0 <= rs[0].now && rs[0].token !in h.accepts
  {
  }

  /** What happens under one request to an accept that is still in a later request's window. */
  lemma HeldStep(h: History, q: Request, t: Token, seconds: int, max: int)
    requires Recorded(h) && q.token !in h.accepts
    requires t in h.accepts ==> q.now - seconds as real < h.accepts[t]
    ensures
      var h' := Next(h, q, seconds, max);
      && (t in h.accepts ==> t in h'.accepts && h'.accepts[t] == h.accepts[t])
      && ((t in h'.accepts ==> t in h'.w.slots) <==>
            (t in h.accepts ==> t in h.w.slots && q.at < h.w.deadline))
  {
    hide Oldest;
  }

  lemma {:induction false} HeldUnlessExpired(h: History, rs: seq<Request>, r: Request, t: Token, seconds: int, max: int)
    requires Recorded(h) && Forward(rs + [r]) && Later(h, rs + [r]) && Past(h)
    requires t in InWindow(After(h, rs, seconds, max).accepts, seconds, r.now)
    ensures
      t in Live(After(h, rs, seconds, max).w, r.at)
      <==> (t in h.accepts ==> t in h.w.slots) && !Expired(h, rs + [r], t, seconds, max)
    ensures t in h.accepts ==> After(h, rs, seconds, max).accepts[t] == h.accepts[t]
    decreases |rs|
  {
    hide Next, Recorded, Past, Forward, Later;
    if rs == [] {
      assert rs + [r] == [r] && [r][1..] == [];
    } else {
      ForwardStep(h, rs + [r], seconds, max);
      assert (rs + [r])[0] == rs[0] && (rs + [r])[1..] == rs[1..] + [r];
      FirstIsFresh(h, rs + [r]);
      var h' := Next(h, rs[0], seconds, max);
      NextKeepsRecorded(h, rs[0], seconds, max);
      HeldUnlessExpired(h', rs[1..], r, t, seconds, max);
      LaterThan(h', rs[1..], r);
      if t in h.accepts {
        KeepsAccept(h, rs[0], t, seconds, max);
      }
      HeldStep(h, rs[0], t, seconds, max);
    }
  }

  lemma KeepsAccept(h: History, q: Request, t: Token, seconds: int, max: int)
    requires t in h.accepts && q.token !in h.accepts
    ensures t in Next(h, q, seconds, max).accepts && Next(h, q, seconds, max).accepts[t] == h.accepts[t]
  {
    hide Prune, Oldest;
  }

  lemma StartsPast(rs: seq<Request>)
    requires Forward(rs)
    ensures Later(Start(), rs) && Past(Start())
  {
  }

  /** What the set has forgotten of a request's window are the accepts whose key has expired since. */
  lemma ForgottenIsExpired(rs: seq<Request>, r: Request, seconds: int, max: int)
    requires Forward(rs + [r])
    ensures Forgotten(After(Start(), rs, seconds, max), r, seconds) == ExpiredInWindow(rs, r, seconds, max)
  {
    hide Recorded, Past, Forward, Later, After, Expired, Live;
    StartsPast(rs + [r]);
    NothingRecorded();
    forall t | t in InWindow(After(Start(), rs, seconds, max).accepts, seconds, r.now)
      ensures t in Live(After(Start(), rs, seconds, max).w, r.at) <==> !Expired(Start(), rs + [r], t, seconds, max)
    {
      HeldUnlessExpired(Start(), rs, r, t, seconds, max);
    }
  }

  lemma NothingIsAhead(h: History, r: Request, seconds: int)
    requires Recorded(h) && Past(h) && h.last <= r.now
    ensures Ahead(h, r, seconds) == {}
  {
  }

  /** Over every run whose clock never runs backwards: a decision differs from the one that the full history calls for
      exactly when the window is full and would not be without the accepts whose key has expired since, under this
      request or an earlier one. */
  lemma WrongExactly(rs: seq<Request>, r: Request, seconds: int, max: int)
    requires Forward(rs + [r])
    ensures
      var h := After(Start(), rs, seconds, max);
      var inWindow, expired := |InWindow(h.accepts, seconds, r.now)|, |ExpiredInWindow(rs, r, seconds, max)|;
      var accepted, called := Evaluate(h.w, r, seconds, max).1.accepted, inWindow < max;
      accepted != called <==> inWindow - expired < max <= inWindow
  {
    hide Recorded, Past, Forward, Later, After, AnyRun, Evaluate, ExpiredInWindow, InWindow, Forgotten;
    StartsPast(rs + [r]);
    NothingRecorded();
    ForwardOverRuns(Start(), rs, r, seconds, max);
    RecordedOverRuns(Start(), rs, seconds, max);
    CountsOverRuns(rs, r, seconds, max);
    ForgottenIsExpired(rs, r, seconds, max);
    NothingIsAhead(After(Start(), rs, seconds, max), r, seconds);
  }

  /** After accepts at 0, 0 and 20 the set has forgotten the first two. */
  function Forgetful(): History {
    History(Window(map[2 := 20.0], 30.0), map[0 := 0.0, 1 := 0.0, 2 := 20.0], 20.0, 20.0)
  }

  lemma TwoAtZero()
    ensures
      Next(Next(Start(), Request(0.0, 0.0, 0), 10, 2), Request(0.0, 0.0, 1), 10, 2)
      == History(Window(map[0 := 0.0, 1 := 0.0], 10.0), map[0 := 0.0, 1 := 0.0], 0.0, 0.0)
  {
    hide Evaluate, Next;
    AcceptsWith(Start(), Request(0.0, 0.0, 0), 10, 2, map[]);
    var h1 := History(Window(map[0 := 0.0], 10.0), map[0 := 0.0], 0.0, 0.0);
    AcceptsWith(h1, Request(0.0, 0.0, 1), 10, 2, map[0 := 0.0]);
  }

  lemma ThirdForgets()
    ensures
      var h := History(Window(map[0 := 0.0, 1 := 0.0], 10.0), map[0 := 0.0, 1 := 0.0], 0.0, 0.0);
      Next(h, Request(20.0, 20.0, 2), 10, 2) == Forgetful()
  {
    hide Evaluate, Next;
    var h := History(Window(map[0 := 0.0, 1 := 0.0], 10.0), map[0 := 0.0, 1 := 0.0], 0.0, 0.0);
    AcceptsWith(h, Request(20.0, 20.0, 2), 10, 2, map[]);
  }

  /** A clock that runs backwards lets a request through that the full history would reject. */
  lemma BackwardClockForgets()
    ensures
      var rs := [Request(0.0, 0.0, 0), Request(0.0, 0.0, 1), Request(20.0, 20.0, 2)];
      var late := Request(5.0, 21.0, 3);
      var h := After(Start(), rs, 10, 2);
      && Evaluate(h.w, late, 10, 2).1.accepted
      && |InWindow(h.accepts, 10, late.now)| == 2
  {
    hide Next, Evaluate, After, InWindow, Forgetful;
    TwoAtZero();
    ThirdForgets();
    RunOfThree(Start(), Request(0.0, 0.0, 0), Request(0.0, 0.0, 1), Request(20.0, 20.0, 2));
    LateIsLetIn();
  }

  lemma LateIsLetIn()
    ensures Evaluate(Forgetful().w, Request(5.0, 21.0, 3), 10, 2).1.accepted
    ensures |InWindow(Forgetful().accepts, 10, 5.0)| == 2
  {
    hide Next, Evaluate;
    AcceptsWith(Forgetful(), Request(5.0, 21.0, 3), 10, 2, map[2 := 20.0]);
    assert InWindow(Forgetful().accepts, 10, 5.0) == {0, 1};
  }

  lemma AcceptsWith(h: History, r: Request, seconds: int, max: int, kept: map<Token, real>)
    requires Prune(Live(h.w, r.at), r.now - seconds as real) == kept && |kept| < max
    ensures Evaluate(h.w, r, seconds, max).1.accepted
    ensures
      Next(h, r, seconds, max)
      == History(Window(kept[r.token := r.now], r.at + seconds as real), h.accepts[r.token := r.now], r.now, r.now)
  {
  }

  lemma RunOfThree(h: History, r0: Request, r1: Request, r2: Request)
    ensures After(h, [r0, r1, r2], 10, 2) == Next(Next(Next(h, r0, 10, 2), r1, 10, 2), r2, 10, 2)
  {
    hide Next;
    assert [r0, r1, r2][1..] == [r1, r2] && [r1, r2][1..] == [r2] && [r2][1..] == [];
    var h3 := Next(Next(Next(h, r0, 10, 2), r1, 10, 2), r2, 10, 2);
    assert After(h3, [], 10, 2) == h3;
    assert After(Next(Next(h, r0, 10, 2), r1, 10, 2), [r2], 10, 2) == h3;
  }

  /** A key that expires on the server while a request is under way lets that request through as well. */
  lemma SlowRequestOutlivesKey()
    ensures
      var h := Next(Start(), Request(0.0, 0.0, 0), 10, 1);
      var slow := Request(9.0, 10.0, 1);
      && Evaluate(h.w, slow, 10, 1).1.accepted
      && |InWindow(h.accepts, 10, slow.now)| == 1
  {
    assert Prune(map[], -10.0) == map[] && Prune(map[], -1.0) == map[];
    assert InWindow(map[0 := 0.0], 10, 9.0) == {0};
  }

  /** The key expires under the second request, which is rightly accepted. The third is then accepted with a full
      window, although the key has not expired under it and the clock never ran backwards. */
  lemma ExpiryIsFeltLater()
    ensures
      var first, second, third := Request(0.0, 0.0, 0), Request(5.0, 10.0, 1), Request(6.0, 11.0, 2);
      var h1, h2 := After(Start(), [first], 10, 2), After(Start(), [first, second], 10, 2);
      && Forward([first, second, third])
      && second.at >= h1.w.deadline && |InWindow(h1.accepts, 10, second.now)| == 1
      && Evaluate(h1.w, second, 10, 2).1.accepted
      && third.at < h2.w.deadline && |InWindow(h2.accepts, 10, third.now)| == 2
      && Evaluate(h2.w, third, 10, 2).1.accepted
  {
    hide Next, Evaluate, After, InWindow;
    var first, second := Request(0.0, 0.0, 0), Request(5.0, 10.0, 1);
    FirstAlone();
    SecondAlone();
    ThirdIsLetIn();
    RunOfTwo(Start(), first, second);
  }

  /** After the first request, and after the second, under which the key has expired. */
  function One(): History { History(Window(map[0 := 0.0], 10.0), map[0 := 0.0], 0.0, 0.0) }

  function Two(): History { History(Window(map[1 := 5.0], 20.0), map[0 := 0.0, 1 := 5.0], 5.0, 5.0) }

  lemma FirstAlone()
    ensures Next(Start(), Request(0.0, 0.0, 0), 10, 2) == One()
  {
    hide Next, Evaluate;
    AcceptsWith(Start(), Request(0.0, 0.0, 0), 10, 2, map[]);
  }

  lemma SecondAlone()
    ensures Next(One(), Request(5.0, 10.0, 1), 10, 2) == Two()
    ensures Evaluate(One().w, Request(5.0, 10.0, 1), 10, 2).1.accepted
    ensures |InWindow(One().accepts, 10, 5.0)| == 1
  {
    hide Next, Evaluate;
    AcceptsWith(One(), Request(5.0, 10.0, 1), 10, 2, map[]);
    assert InWindow(One().accepts, 10, 5.0) == {0};
  }

  lemma ThirdIsLetIn()
    ensures Evaluate(Two().w, Request(6.0, 11.0, 2), 10, 2).1.accepted && |InWindow(Two().accepts, 10, 6.0)| == 2
  {
    hide Next, Evaluate;
    AcceptsWith(Two(), Request(6.0, 11.0, 2), 10, 2, map[1 := 5.0]);
    assert InWindow(Two().accepts, 10, 6.0) == {0, 1};
  }

  lemma RunOfTwo(h: History, r0: Request, r1: Request)
    ensures After(h, [r0], 10, 2) == Next(h, r0, 10, 2)
    ensures After(h, [r0, r1], 10, 2) == Next(Next(h, r0, 10, 2), r1, 10, 2)
  {
    hide Next;
    assert [r0, r1][1..] == [r1] && [r0][1..] == [] && [r1][1..] == [];
    assert forall h' :: After(h', [], 10, 2) == h';
    assert After(Next(h, r0, 10, 2), [r1], 10, 2) == Next(Next(h, r0, 10, 2), r1, 10, 2);
  }

  /** Running the script again for a request leaves the set alone, but rejects the one that took the last slot. */
  lemma RetriedScript(w: Window, r: Request, seconds: int, max: int)
    requires 0 < seconds && r.token !in w.slots && 0.0 <= r.now
    requires Evaluate(w, r, seconds, max).1.accepted
    ensures
      var first := Evaluate(w, r, seconds, max);
      var again := Evaluate(first.0, r, seconds, max);
      && again.0 == first.0
      && (again.1.accepted <==> first.1.count < max)
  {
    hide Oldest, Prune;
    var slots := Prune(Live(w, r.at), r.now - seconds as real);
    assert Prune(slots[r.token := r.now], r.now - seconds as real) == slots[r.token := r.now];
  }

  // ---------- Retry-After ----------

  /** int() of a float: truncation towards zero. */
  function Truncate(x: real): int {
    if x >= 0.0 then x.Floor else -((-x).Floor)
  }

  /** The header of a rejection; a zero score counts as no score at all. */
  function RetryAfter(reply: Reply, now: real, seconds: int): int {
    var wait := Truncate(reply.oldest + seconds as real - now);
    if reply.oldest == 0.0 then seconds else if wait < 1 then 1 else wait
  }

  lemma RejectedScore(h: History, r: Request, seconds: int, max: int)
    requires Kept(h, seconds) && Orderly(h, r, seconds) && max > 0
    requires !Evaluate(h.w, r, seconds, max).1.accepted
    ensures
      var oldest, window := Evaluate(h.w, r, seconds, max).1.oldest, InWindow(h.accepts, seconds, r.now);
      && (exists t :: t in window && h.accepts[t] == oldest)
      && (forall t :: t in window ==> oldest <= h.accepts[t])
      && r.now - seconds as real < oldest <= r.now
  {
    hide Prune, Orderly;
    PrunedIsWindow(h, r, seconds);
    var slots := Prune(Live(h.w, r.at), r.now - seconds as real);
    assert slots != map[];
    OldestIsHeld(slots);
    var t :| IsOldest(slots, t) && slots[t] == Oldest(slots);
    assert t in InWindow(h.accepts, seconds, r.now);
  }

  lemma RetryAfterInRange(h: History, r: Request, seconds: int, max: int)
    requires Kept(h, seconds) && Orderly(h, r, seconds) && max > 0 && seconds >= 1
    requires !Evaluate(h.w, r, seconds, max).1.accepted
    ensures 1 <= RetryAfter(Evaluate(h.w, r, seconds, max).1, r.now, seconds) <= seconds
  {
    hide Evaluate, Kept, Orderly;
    RejectedScore(h, r, seconds, max);
  }

  /** With no slots to give, every request is rejected, and told to wait for a whole window if none is taken. */
  lemma NoSlotsAtAll(w: Window, r: Request, seconds: int, max: int)
    requires max <= 0
    ensures
      var slots, reply := Prune(Live(w, r.at), r.now - seconds as real), Evaluate(w, r, seconds, max).1;
      !reply.accepted && reply.count == |slots| && (slots == map[] ==> RetryAfter(reply, r.now, seconds) == seconds)
  {
    hide Prune;
  }

  lemma {:induction false} AcceptsGrow(h: History, rs: seq<Request>, seconds: int, max: int)
    requires Kept(h, seconds) && OrderlyRun(h, rs, seconds, max)
    ensures
      var h' := After(h, rs, seconds, max);
      && Kept(h', seconds) && h.last <= h'.last
      && (forall t :: t in h.accepts ==> t in h'.accepts && h'.accepts[t] == h.accepts[t])
    decreases |rs|
  {
    hide Evaluate, Kept;
    if rs != [] {
      NextKeeps(h, rs[0], seconds, max);
      AcceptsGrow(Next(h, rs[0], seconds, max), rs[1..], seconds, max);
    }
  }

  /** The state that a rejection leaves, and the run of requests that follows it. */
  ghost predicate Rejected(h: History, r: Request, rs: seq<Request>, seconds: int, max: int) {
    && Kept(h, seconds) && Fair(h.accepts, seconds, max) && Orderly(h, r, seconds) && max > 0
    && !Evaluate(h.w, r, seconds, max).1.accepted
    && OrderlyRun(Next(h, r, seconds, max), rs, seconds, max)
  }

  lemma AfterRejection(h: History, r: Request, rs: seq<Request>, seconds: int, max: int)
    requires Rejected(h, r, rs, seconds, max)
    ensures
      var h' := After(Next(h, r, seconds, max), rs, seconds, max);
      && Kept(h', seconds) && r.now <= h'.last && |InWindow(h.accepts, seconds, r.now)| == max
      && (forall t :: t in h.accepts ==> t in h'.accepts && h'.accepts[t] == h.accepts[t])
  {
    hide Evaluate, Kept, Fair, After;
    DecidesByHistory(h, r, seconds, max);
    FairAt(h.accepts, seconds, max, r.now);
    NextKeeps(h, r, seconds, max);
    AcceptsGrow(Next(h, r, seconds, max), rs, seconds, max);
  }

  /** Whatever requests come in between: every one before the oldest accept has left the window is rejected too. */
  lemma RejectedUntilSlotFrees(h: History, r: Request, rs: seq<Request>, next: Request, seconds: int, max: int)
    requires Rejected(h, r, rs, seconds, max)
    requires Orderly(After(Next(h, r, seconds, max), rs, seconds, max), next, seconds)
    requires next.now < Evaluate(h.w, r, seconds, max).1.oldest + seconds as real
    ensures !Evaluate(After(Next(h, r, seconds, max), rs, seconds, max).w, next, seconds, max).1.accepted
  {
    hide Evaluate, Kept, Fair, After, Next, OrderlyRun;
    AfterRejection(h, r, rs, seconds, max);
    RejectedScore(h, r, seconds, max);
    var h' := After(Next(h, r, seconds, max), rs, seconds, max);
    SubsetIsSmaller(InWindow(h.accepts, seconds, r.now), InWindow(h'.accepts, seconds, next.now));
    DecidesByHistory(h', next, seconds, max);
  }

  /** If nothing was accepted in between, a request is let in exactly once the oldest accept has left its window. */
  lemma SlotFreesWithOldest(h: History, r: Request, rs: seq<Request>, next: Request, seconds: int, max: int)
    requires Rejected(h, r, rs, seconds, max)
    requires Orderly(After(Next(h, r, seconds, max), rs, seconds, max), next, seconds)
    requires After(Next(h, r, seconds, max), rs, seconds, max).accepts == h.accepts
    ensures
      Evaluate(After(Next(h, r, seconds, max), rs, seconds, max).w, next, seconds, max).1.accepted
      <==> next.now >= Evaluate(h.w, r, seconds, max).1.oldest + seconds as real
  {
    hide Evaluate, Kept, Fair, After, Next, OrderlyRun;
    var oldest := Evaluate(h.w, r, seconds, max).1.oldest;
    if next.now < oldest + seconds as real {
      RejectedUntilSlotFrees(h, r, rs, next, seconds, max);
    } else {
      AfterRejection(h, r, rs, seconds, max);
      RejectedScore(h, r, seconds, max);
      var window := InWindow(h.accepts, seconds, r.now);
      var t :| t in window && h.accepts[t] == oldest;
      NothingNew(h, r, next, seconds);
      SubsetIsSmaller(InWindow(h.accepts, seconds, next.now), window - {t});
      DecidesByHistory(After(Next(h, r, seconds, max), rs, seconds, max), next, seconds, max);
    }
  }

  lemma NothingNew(h: History, r: Request, next: Request, seconds: int)
    requires Kept(h, seconds) && Orderly(h, r, seconds) && r.now <= next.now
    ensures InWindow(h.accepts, seconds, next.now) <= InWindow(h.accepts, seconds, r.now)
  {
  }

  /** Over any run after a rejection, no request sooner than told is let in, once the wait is at least a second. If
      nothing is accepted in between, a client that waits exactly as told is let in if and only if the wait was a whole
      number of seconds or at most one, and one second more always suffices. */
  lemma RetryAfterTight(h: History, r: Request, rs: seq<Request>, next: Request, seconds: int, max: int)
    requires Rejected(h, r, rs, seconds, max)
    requires Orderly(After(Next(h, r, seconds, max), rs, seconds, max), next, seconds)
    requires Evaluate(h.w, r, seconds, max).1.oldest != 0.0
    ensures
      var reply, h' := Evaluate(h.w, r, seconds, max).1, After(Next(h, r, seconds, max), rs, seconds, max);
      var told := RetryAfter(reply, r.now, seconds) as real;
      var wait := reply.oldest + seconds as real - r.now;
      var admitted := Evaluate(h'.w, next, seconds, max).1.accepted;
      && (wait >= 1.0 && next.now < r.now + told ==> !admitted)
      && (h'.accepts == h.accepts && next.now == r.now + told ==>
            (admitted <==> wait <= 1.0 || wait == wait.Floor as real))
      && (h'.accepts == h.accepts && next.now >= r.now + told + 1.0 ==> admitted)
  {
    hide Evaluate, Kept, Fair, Orderly, Next, After, OrderlyRun, InWindow;
    RejectedScore(h, r, seconds, max);
    var h' := After(Next(h, r, seconds, max), rs, seconds, max);
    if next.now < Evaluate(h.w, r, seconds, max).1.oldest + seconds as real {
      RejectedUntilSlotFrees(h, r, rs, next, seconds, max);
    }
    if h'.accepts == h.accepts {
      SlotFreesWithOldest(h, r, rs, next, seconds, max);
    }
  }
}
