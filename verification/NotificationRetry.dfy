/** View notifications: a main queue and a dead-letter queue for each channel, handlers that acknowledge or reject, and
    one retry loop that republishes rejected messages a bounded number of times. */
module NotificationRetry {

  const MAX_RETRIES: nat := 3

  /** attempt is the x-retry-attempt header; a message without one counts as 0. */
  datatype Message = Message(id: nat, attempt: nat)

  /** What the retry loop holds unacknowledged, or has just acknowledged and not yet reported. */
  datatype Held = Idle | Taken(m: Message) | Republished(m: Message) | Exhausted(m: Message)

  /** One channel (email or webhook). Handlers hold unacknowledged messages, sent once the mail or the webhook has gone
      out. The rest counts, for each message, the acknowledgements after success, the alerts, the handler runs and the
      sendings. */
  datatype Line = Line(
    ready: seq<Message>,
    handling: seq<Message>,
    sent: seq<Message>,
    dead: seq<Message>,
    held: Held,
    published: set<nat>,
    delivered: multiset<nat>,
    alerted: multiset<nat>,
    runs: multiset<nat>,
    sendings: multiset<nat>)

  datatype Worker = Worker(email: Line, webhook: Line)

  datatype Action =
    | Deliver
    | SendOut(i: nat)
    | Ack(i: nat)
    | Reject(i: nat)
    | RejectLate(i: nat)
    | Take
    | Republish
    | AckRetry
    | AckExhausted
    | Alert

  datatype Step = Publish(email: bool, id: nat) | Act(email: bool, action: Action) | Crash

  // ---------- Steps ----------

  function Without<T>(s: seq<T>, i: nat): seq<T>
    requires i < |s|
  {
    s[..i] + s[i + 1..]
  }

  /** The handlers' side: a delivery, the sending, an acknowledgement after success, a rejection after a failure, which
      may also come after the sending (a lost reply, or a connection that fails to close). */
  function Handle(l: Line, action: Action): Line {
    match action
    case Deliver =>
      if l.ready == [] then l
      else l.(ready := l.ready[1..], handling := l.handling + [l.ready[0]], runs := l.runs + multiset{l.ready[0].id})
    case SendOut(i) =>
      if i >= |l.handling| then l
      else
        l.(handling := Without(l.handling, i), sent := l.sent + [l.handling[i]],
           sendings := l.sendings + multiset{l.handling[i].id})
    case Ack(i) =>
      if i >= |l.sent| then l
      else l.(sent := Without(l.sent, i), delivered := l.delivered + multiset{l.sent[i].id})
    case Reject(i) =>
      if i >= |l.handling| then l
      else l.(handling := Without(l.handling, i), dead := l.dead + [l.handling[i]])
    case RejectLate(i) =>
      if i >= |l.sent| then l
      else l.(sent := Without(l.sent, i), dead := l.dead + [l.sent[i]])
    case _ => l
  }

  /** The retry loop's side: it acknowledges a message after republishing it, but before reporting it. */
  function Retry(l: Line, action: Action): Line {
    match action
    case Take =>
      if l.dead == [] || !l.held.Idle? then l else l.(dead := l.dead[1..], held := Taken(l.dead[0]))
    case Republish =>
      if !l.held.Taken? || l.held.m.attempt + 1 > MAX_RETRIES then l
      else l.(ready := l.ready + [l.held.m.(attempt := l.held.m.attempt + 1)], held := Republished(l.held.m))
    case AckRetry =>
      if !l.held.Republished? then l else l.(held := Idle)
    case AckExhausted =>
      if !l.held.Taken? || l.held.m.attempt + 1 <= MAX_RETRIES then l else l.(held := Exhausted(l.held.m))
    case Alert =>
      if !l.held.Exhausted? then l else l.(held := Idle, alerted := l.alerted + multiset{l.held.m.id})
    case _ => l
  }

  /** The broker takes back whatever was not acknowledged. */
  function Recovered(l: Line): Line {
    l.(ready := l.handling + (l.sent + l.ready), handling := [], sent := [], held := Idle,
       dead := if l.held.Taken? || l.held.Republished? then [l.held.m] + l.dead else l.dead)
  }

  function ActOn(l: Line, action: Action): Line {
    if action.Take? || action.Republish? || action.AckRetry? || action.AckExhausted? || action.Alert?
    then Retry(l, action) else Handle(l, action)
  }

  /** One retry loop serves both channels, so it takes a message only when it holds none. */
  predicate Allowed(w: Worker, action: Action) {
    action.Take? ==> w.email.held.Idle? && w.webhook.held.Idle?
  }

  function Publishing(l: Line, id: nat): Line {
    if id in l.published then l
    else l.(ready := l.ready + [Message(id, 0)], published := l.published + {id})
  }

  function Next(w: Worker, step: Step): Worker {
    match step
    case Publish(email, id) =>
      if email then w.(email := Publishing(w.email, id)) else w.(webhook := Publishing(w.webhook, id))
    case Act(email, action) =>
      if !Allowed(w, action) then w
      else if email then w.(email := ActOn(w.email, action))
      else w.(webhook := ActOn(w.webhook, action))
    case Crash => Worker(Recovered(w.email), Recovered(w.webhook))
  }

  function RunAll(w: Worker, steps: seq<Step>): Worker
    decreases |steps|
  {
    if steps == [] then w else RunAll(Next(w, steps[0]), steps[1..])
  }

  function EmptyLine(): Line {
    Line([], [], [], [], Idle, {}, multiset{}, multiset{}, multiset{}, multiset{})
  }

  function Started(): Worker {
    Worker(EmptyLine(), EmptyLine())
  }

  lemma HeldByTaking(l: Line, action: Action)
    requires l.held.Idle? && !action.Take?
    ensures ActOn(l, action).held.Idle?
  {
  }

  /** There is one retry loop: it never holds messages of both channels, in any run. */
  lemma {:induction false} OneAtATime(w: Worker, steps: seq<Step>)
    requires w.email.held.Idle? || w.webhook.held.Idle?
    ensures RunAll(w, steps).email.held.Idle? || RunAll(w, steps).webhook.held.Idle?
    decreases |steps|
  {
    hide ActOn;
    if steps != [] {
      if steps[0].Act? && !steps[0].action.Take? {
        if w.email.held.Idle? {
          HeldByTaking(w.email, steps[0].action);
        }
        if w.webhook.held.Idle? {
          HeldByTaking(w.webhook, steps[0].action);
        }
      }
      OneAtATime(Next(w, steps[0]), steps[1..]);
    }
  }

  // ---------- Sums over queues ----------

  function Sum(s: seq<Message>, f: Message -> int): int {
    if s == [] then 0 else f(s[0]) + Sum(s[1..], f)
  }

  lemma {:induction false} SumJoin(a: seq<Message>, b: seq<Message>, f: Message -> int)
    ensures Sum(a + b, f) == Sum(a, f) + Sum(b, f)
  {
    if a == [] {
      assert a + b == b;
    } else {
      assert (a + b)[1..] == a[1..] + b;
      SumJoin(a[1..], b, f);
    }
  }

  lemma SumAppend(s: seq<Message>, m: Message, f: Message -> int)
    ensures Sum(s + [m], f) == Sum(s, f) + f(m)
  {
    SumJoin(s, [m], f);
  }

  lemma {:induction false} SumWithout(s: seq<Message>, i: nat, f: Message -> int)
    requires i < |s|
    ensures Sum(s, f) == Sum(Without(s, i), f) + f(s[i])
  {
    if i == 0 {
      assert Without(s, 0) == s[1..];
    } else {
      assert Without(s, i)[1..] == Without(s[1..], i - 1);
      SumWithout(s[1..], i - 1, f);
    }
  }

  /** One measure of a line: what a message counts in each place. */
  datatype Scale = Scale(ready: Message -> int, handling: Message -> int, sent: Message -> int, dead: Message -> int,
                         taken: Message -> int, republished: Message -> int, exhausted: Message -> int)

  function HeldValue(h: Held, v: Scale): int {
    match h
    case Idle => 0
    case Taken(m) => v.taken(m)
    case Republished(m) => v.republished(m)
    case Exhausted(m) => v.exhausted(m)
  }

  function Value(l: Line, v: Scale): int {
    Sum(l.ready, v.ready) + Sum(l.handling, v.handling) + Sum(l.sent, v.sent) + Sum(l.dead, v.dead)
    + HeldValue(l.held, v)
  }

  /** How one action changes a measure: by the difference between the places of the message it moves. */
  lemma ActChanges(l: Line, action: Action, v: Scale)
    ensures
      var l' := ActOn(l, action);
      if l' == l then Value(l', v) == Value(l, v)
      else
        Value(l', v) - Value(l, v)
        == match action
           case Deliver => v.handling(l.ready[0]) - v.ready(l.ready[0])
           case SendOut(i) => v.sent(l.handling[i]) - v.handling(l.handling[i])
           case Ack(i) => -v.sent(l.sent[i])
           case Reject(i) => v.dead(l.handling[i]) - v.handling(l.handling[i])
           case RejectLate(i) => v.dead(l.sent[i]) - v.sent(l.sent[i])
           case Take => v.taken(l.dead[0]) - v.dead(l.dead[0])
           case Republish =>
             v.ready(l.held.m.(attempt := l.held.m.attempt + 1)) + v.republished(l.held.m) - v.taken(l.held.m)
           case AckRetry => -v.republished(l.held.m)
           case AckExhausted => v.exhausted(l.held.m) - v.taken(l.held.m)
           case Alert => -v.exhausted(l.held.m)
  {
    match action
    case Deliver =>
      if l.ready != [] {
        SumAppend(l.handling, l.ready[0], v.handling);
      }
    case SendOut(i) =>
      if i < |l.handling| {
        SumWithout(l.handling, i, v.handling);
        SumAppend(l.sent, l.handling[i], v.sent);
      }
    case Ack(i) =>
      if i < |l.sent| {
        SumWithout(l.sent, i, v.sent);
      }
    case Reject(i) =>
      if i < |l.handling| {
        SumWithout(l.handling, i, v.handling);
        SumAppend(l.dead, l.handling[i], v.dead);
      }
    case RejectLate(i) =>
      if i < |l.sent| {
        SumWithout(l.sent, i, v.sent);
        SumAppend(l.dead, l.sent[i], v.dead);
      }
    case Republish =>
      if l.held.Taken? {
        SumAppend(l.ready, l.held.m.(attempt := l.held.m.attempt + 1), v.ready);
      }
    case _ =>
  }

  // ---------- Conservation ----------

  function IsId(id: nat): Message -> int {
    (m: Message) => if m.id == id then 1 else 0
  }

  function Nothing(): Message -> int {
    (m: Message) => 0
  }

  /** Copies of one message; a republished message has its copy in the main queue already. */
  function Copies(id: nat): Scale {
    Scale(IsId(id), IsId(id), IsId(id), IsId(id), IsId(id), Nothing(), IsId(id))
  }

  /** How often a message is on its way, delivered or alerted. */
  function Present(l: Line, id: nat): int {
    Value(l, Copies(id)) + l.delivered[id] + l.alerted[id]
  }

  function LineOf(w: Worker, email: bool): Line {
    if email then w.email else w.webhook
  }

  predicate FirstPublish(w: Worker, step: Step, email: bool, id: nat) {
    step == Publish(email, id) && id !in LineOf(w, email).published
  }

  /** A crash after the retry loop has republished a message and before it has acknowledged it. */
  predicate Doubles(w: Worker, step: Step, email: bool, id: nat) {
    var held := LineOf(w, email).held;
    step.Crash? && held.Republished? && held.m.id == id
  }

  /** A crash after the retry loop has acknowledged an exhausted message and before it has reported it. */
  predicate Drops(w: Worker, step: Step, email: bool, id: nat) {
    var held := LineOf(w, email).held;
    step.Crash? && held.Exhausted? && held.m.id == id
  }

  lemma ActConserves(l: Line, action: Action, id: nat)
    ensures Present(ActOn(l, action), id) == Present(l, id)
  {
    hide Value;
    ActChanges(l, action, Copies(id));
  }

  lemma PublishAdds(l: Line, newId: nat, id: nat)
    ensures Present(Publishing(l, newId), id) == Present(l, id) + if newId == id && id !in l.published then 1 else 0
  {
    SumAppend(l.ready, Message(newId, 0), IsId(id));
  }

  lemma RecoveryChanges(l: Line, id: nat)
    ensures
      Present(Recovered(l), id) - Present(l, id)
      == if l.held.Republished? && l.held.m.id == id then 1
         else if l.held.Exhausted? && l.held.m.id == id then -1 else 0
  {
    SumJoin(l.handling, l.sent + l.ready, IsId(id));
    SumJoin(l.sent, l.ready, IsId(id));
    if !l.held.Idle? {
      SumJoin([l.held.m], l.dead, IsId(id));
    }
  }

  /** In any state, and in either channel: a message becomes one more exactly when it is first published or a crash
      falls between its republishing and its acknowledgement, and one less exactly when a crash falls between the
      acknowledgement and the report of an exhausted one. */
  lemma PresenceChangesExactly(w: Worker, step: Step, email: bool, id: nat)
    ensures
      Present(LineOf(Next(w, step), email), id) - Present(LineOf(w, email), id)
      == if FirstPublish(w, step, email, id) || Doubles(w, step, email, id) then 1
         else if Drops(w, step, email, id) then -1 else 0
  {
    hide Present, ActOn, Publishing, Recovered;
    var l := LineOf(w, email);
    match step
    case Publish(_, newId) => PublishAdds(l, newId, id);
    case Act(_, action) => ActConserves(l, action, id);
    case Crash => RecoveryChanges(l, id);
  }

  /** How many steps of a run do something. */
  ghost function Occurrences(w: Worker, steps: seq<Step>, what: (Worker, Step) -> bool): nat
    decreases |steps|
  {
    if steps == [] then 0
    else (if what(w, steps[0]) then 1 else 0) + Occurrences(Next(w, steps[0]), steps[1..], what)
  }

  function IsDoubling(email: bool, id: nat): (Worker, Step) -> bool {
    (w: Worker, step: Step) => Doubles(w, step, email, id)
  }

  function IsDropping(email: bool, id: nat): (Worker, Step) -> bool {
    (w: Worker, step: Step) => Drops(w, step, email, id)
  }

  function IsPublishing(email: bool, id: nat): (Worker, Step) -> bool {
    (w: Worker, step: Step) => FirstPublish(w, step, email, id)
  }

  lemma {:induction false} PresenceOverRuns(w: Worker, steps: seq<Step>, email: bool, id: nat)
    ensures
      Present(LineOf(RunAll(w, steps), email), id)
      == Present(LineOf(w, email), id) + Occurrences(w, steps, IsPublishing(email, id))
         + Occurrences(w, steps, IsDoubling(email, id)) - Occurrences(w, steps, IsDropping(email, id))
    decreases |steps|
  {
    hide Present, Next, FirstPublish, Doubles, Drops;
    if steps != [] {
      PresenceChangesExactly(w, steps[0], email, id);
      NotBoth(w, steps[0], email, id);
      PresenceOverRuns(Next(w, steps[0]), steps[1..], email, id);
    }
  }

  lemma NotBoth(w: Worker, step: Step, email: bool, id: nat)
    ensures FirstPublish(w, step, email, id) ==> !Doubles(w, step, email, id) && !Drops(w, step, email, id)
    ensures Doubles(w, step, email, id) ==> !Drops(w, step, email, id)
  {
  }

  function IfPublished(l: Line, id: nat): nat {
    if id in l.published then 1 else 0
  }

  lemma {:induction false} PublishedOnce(w: Worker, steps: seq<Step>, email: bool, id: nat)
    ensures
      IfPublished(LineOf(RunAll(w, steps), email), id)
      == IfPublished(LineOf(w, email), id) + Occurrences(w, steps, IsPublishing(email, id))
    decreases |steps|
  {
    hide Next, FirstPublish;
    if steps != [] {
      PublishedStep(w, steps[0], email, id);
      PublishedOnce(Next(w, steps[0]), steps[1..], email, id);
    }
  }

  lemma PublishedStep(w: Worker, step: Step, email: bool, id: nat)
    ensures
      IfPublished(LineOf(Next(w, step), email), id)
      == IfPublished(LineOf(w, email), id) + if FirstPublish(w, step, email, id) then 1 else 0
  {
  }

  /** Whatever the interleaving, and wherever the worker crashes, in each channel: a published message is on its way,
      delivered or alerted once, and once more for each crash that doubled it, less once for each that dropped it. */
  lemma NothingVanishes(steps: seq<Step>, email: bool, id: nat)
    ensures
      var l := LineOf(RunAll(Started(), steps), email);
      Present(l, id) == IfPublished(l, id) + Occurrences(Started(), steps, IsDoubling(email, id))
                        - Occurrences(Started(), steps, IsDropping(email, id))
  {
    PresenceOverRuns(Started(), steps, email, id);
    PublishedOnce(Started(), steps, email, id);
  }

  // ---------- Sendings ----------

  /** Sendings that no acknowledgement followed, other than those that may still be acknowledged. */
  function Unacknowledged(l: Line, id: nat): int {
    l.sendings[id] - l.delivered[id] - Sum(l.sent, IsId(id))
  }

  predicate LateRejection(w: Worker, step: Step, email: bool, id: nat) {
    && step.Act? && step.email == email && step.action.RejectLate?
    && step.action.i < |LineOf(w, email).sent| && LineOf(w, email).sent[step.action.i].id == id
  }

  /** How many sendings of a message a step deprives of their acknowledgement: a crash those of all its sent copies, a
      late rejection that of one. */
  function Hits(w: Worker, step: Step, email: bool, id: nat): int {
    if step.Crash? then Sum(LineOf(w, email).sent, IsId(id))
    else if LateRejection(w, step, email, id) then 1 else 0
  }

  /** Over every step: a sending is left without an acknowledgement exactly by a crash or rejection that hits it. */
  lemma UnacknowledgedExactly(w: Worker, step: Step, email: bool, id: nat)
    ensures
      Unacknowledged(LineOf(Next(w, step), email), id)
      == Unacknowledged(LineOf(w, email), id) + Hits(w, step, email, id)
  {
    hide Value;
    var l := LineOf(w, email);
    if step.Act? && step.email == email {
      SendingChanges(l, step.action, id);
    }
  }

  lemma RetrySendsNothing(l: Line, action: Action, id: nat)
    ensures Unacknowledged(Retry(l, action), id) == Unacknowledged(l, id)
  {
  }

  lemma SendingChanges(l: Line, action: Action, id: nat)
    ensures
      Unacknowledged(ActOn(l, action), id) - Unacknowledged(l, id)
      == if action.RejectLate? && action.i < |l.sent| && l.sent[action.i].id == id then 1 else 0
  {
    hide Sum, Without, Retry;
    RetrySendsNothing(l, action, id);
    match action
    case SendOut(i) =>
      if i < |l.handling| {
        SumAppend(l.sent, l.handling[i], IsId(id));
      }
    case Ack(i) =>
      if i < |l.sent| {
        SumWithout(l.sent, i, IsId(id));
      }
    case RejectLate(i) =>
      if i < |l.sent| {
        SumWithout(l.sent, i, IsId(id));
      }
    case _ =>
  }

  /** The hits of a whole run. */
  ghost function AllHits(w: Worker, steps: seq<Step>, email: bool, id: nat): int
    decreases |steps|
  {
    if steps == [] then 0 else Hits(w, steps[0], email, id) + AllHits(Next(w, steps[0]), steps[1..], email, id)
  }

  lemma {:induction false} HitsAddUp(w: Worker, steps: seq<Step>, email: bool, id: nat)
    ensures
      Unacknowledged(LineOf(RunAll(w, steps), email), id)
      == Unacknowledged(LineOf(w, email), id) + AllHits(w, steps, email, id)
    decreases |steps|
  {
    hide Next, Unacknowledged, Hits;
    if steps != [] {
      UnacknowledgedExactly(w, steps[0], email, id);
      HitsAddUp(Next(w, steps[0]), steps[1..], email, id);
    }
  }

  /** In every run, with crashes anywhere: each sending has been acknowledged, still may be, or was hit by a crash or a
      late rejection; and beyond the first, a message is sent at most as often as a crash doubled it or a sending was
      hit. */
  lemma SendingsOverRuns(steps: seq<Step>, email: bool, id: nat)
    ensures
      var l := LineOf(RunAll(Started(), steps), email);
      var hits := AllHits(Started(), steps, email, id);
      && l.sendings[id] == l.delivered[id] + Sum(l.sent, IsId(id)) + hits
      && l.sendings[id] <= IfPublished(l, id) + Occurrences(Started(), steps, IsDoubling(email, id)) + hits
  {
    hide RunAll;
    NothingSentYet(email, id);
    HitsAddUp(Started(), steps, email, id);
    NothingVanishes(steps, email, id);
    SentIsPresent(LineOf(RunAll(Started(), steps), email), id);
  }

  lemma NothingSentYet(email: bool, id: nat)
    ensures Unacknowledged(LineOf(Started(), email), id) == 0
  {
  }

  lemma SentIsPresent(l: Line, id: nat)
    ensures l.delivered[id] + Sum(l.sent, IsId(id)) <= Present(l, id)
  {
    SumNonnegative(l.ready, IsId(id));
    SumNonnegative(l.handling, IsId(id));
    SumNonnegative(l.dead, IsId(id));
  }

  /** A message that no crash doubles and none of whose sendings is hit is sent at most once, whatever happens to
      others. */
  lemma SentAtMostOnce(steps: seq<Step>, email: bool, id: nat)
    requires Occurrences(Started(), steps, IsDoubling(email, id)) == 0 && AllHits(Started(), steps, email, id) == 0
    ensures
      var l := LineOf(RunAll(Started(), steps), email);
      l.sendings[id] == l.delivered[id] + Sum(l.sent, IsId(id)) <= 1
  {
    hide RunAll, AllHits, Occurrences;
    SendingsOverRuns(steps, email, id);
  }

  // ---------- Attempts and handler runs ----------

  /** No attempt number exceeds the limit, and only a message at the limit is given up. */
  ghost predicate Limited(l: Line) {
    && (forall m :: m in l.ready || m in l.handling || m in l.sent || m in l.dead ==> m.attempt <= MAX_RETRIES)
    && (l.held.Taken? ==> l.held.m.attempt <= MAX_RETRIES)
    && (l.held.Republished? ==> l.held.m.attempt < MAX_RETRIES)
    && (l.held.Exhausted? ==> l.held.m.attempt == MAX_RETRIES)
  }

  lemma ActKeepsLimited(l: Line, action: Action)
    requires Limited(l)
    ensures Limited(ActOn(l, action))
  {
  }

  lemma PublishKeepsLimited(l: Line, id: nat)
    requires Limited(l)
    ensures Limited(Publishing(l, id))
  {
  }

  lemma RecoveryKeepsLimited(l: Line)
    requires Limited(l)
    ensures Limited(Recovered(l))
  {
  }

  /** How many more handler runs a message can have, from the main queue or after a run began. */
  function RunsLeft(id: nat, before: bool): Message -> int {
    (m: Message) => if m.id != id then 0 else MAX_RETRIES - m.attempt + if before then 1 else 0
  }

  function Allowance(id: nat): Scale {
    var left := RunsLeft(id, false);
    Scale(RunsLeft(id, true), left, left, left, left, Nothing(), left)
  }

  /** Until a crash, the runs made and the runs left add up to four for each message not yet delivered. */
  ghost predicate RunsAddUp(l: Line, id: nat) {
    var total := l.runs[id] + Value(l, Allowance(id));
    total <= (MAX_RETRIES + 1) * IfPublished(l, id) <= total + MAX_RETRIES * l.delivered[id]
  }

  lemma ActKeepsRuns(l: Line, action: Action, id: nat)
    requires Limited(l) && RunsAddUp(l, id)
    ensures RunsAddUp(ActOn(l, action), id)
  {
    hide Value;
    ActChanges(l, action, Allowance(id));
  }

  lemma PublishKeepsRuns(l: Line, newId: nat, id: nat)
    requires RunsAddUp(l, id)
    ensures RunsAddUp(Publishing(l, newId), id)
  {
    SumAppend(l.ready, Message(newId, 0), RunsLeft(id, true));
  }

  // ---------- Weight ----------

  function Level(rank: int): Message -> int {
    (m: Message) => 6 * (MAX_RETRIES - m.attempt) + rank
  }

  function Bare(): Message -> int {
    (m: Message) => 1
  }

  function Work(): Scale {
    Scale(Level(6), Level(5), Level(4), Level(3), Level(2), Bare(), Bare())
  }

  function Weight(l: Line): int {
    Value(l, Work())
  }

  /** Every action that does anything brings the line closer to rest. */
  lemma ActLowersWeight(l: Line, action: Action)
    requires Limited(l)
    ensures ActOn(l, action) == l || Weight(ActOn(l, action)) < Weight(l)
  {
    hide Value;
    ActChanges(l, action, Work());
  }

  lemma {:induction false} SumNonnegative(s: seq<Message>, f: Message -> int)
    requires forall m :: m in s ==> f(m) >= 0
    ensures Sum(s, f) >= 0
  {
    if s != [] {
      SumNonnegative(s[1..], f);
    }
  }

  lemma ValueNonnegative(l: Line, id: nat)
    requires Limited(l)
    ensures Value(l, Copies(id)) >= 0 && Value(l, Allowance(id)) >= 0 && Weight(l) >= 0
  {
    SumsNonnegative(l, Copies(id));
    SumsNonnegative(l, Allowance(id));
    SumsNonnegative(l, Work());
  }

  lemma SumsNonnegative(l: Line, v: Scale)
    requires forall m: Message :: m.attempt <= MAX_RETRIES ==>
               && v.ready(m) >= 0 && v.handling(m) >= 0 && v.sent(m) >= 0 && v.dead(m) >= 0
               && v.taken(m) >= 0 && v.republished(m) >= 0 && v.exhausted(m) >= 0
    requires Limited(l)
    ensures Value(l, v) >= 0
  {
    SumNonnegative(l.ready, v.ready);
    SumNonnegative(l.handling, v.handling);
    SumNonnegative(l.sent, v.sent);
    SumNonnegative(l.dead, v.dead);
  }

  // ---------- Whole runs ----------

  ghost predicate Good(w: Worker) {
    Limited(w.email) && Limited(w.webhook)
  }

  lemma StepKeepsGood(w: Worker, step: Step)
    requires Good(w)
    ensures Good(Next(w, step))
  {
    hide Limited, ActOn, Publishing, Recovered;
    match step
    case Publish(email, newId) => PublishKeepsLimited(LineOf(w, email), newId);
    case Act(email, action) => ActKeepsLimited(LineOf(w, email), action);
    case Crash =>
      RecoveryKeepsLimited(w.email);
      RecoveryKeepsLimited(w.webhook);
  }

  lemma {:induction false} GoodOverRuns(w: Worker, steps: seq<Step>)
    requires Good(w)
    ensures Good(RunAll(w, steps))
    decreases |steps|
  {
    hide Good, Next;
    if steps != [] {
      StepKeepsGood(w, steps[0]);
      GoodOverRuns(Next(w, steps[0]), steps[1..]);
    }
  }

  lemma StartIsGood()
    ensures Good(Started())
  {
  }

  lemma StepKeepsRuns(w: Worker, step: Step, email: bool, id: nat)
    requires Good(w) && RunsAddUp(LineOf(w, email), id) && !step.Crash?
    ensures RunsAddUp(LineOf(Next(w, step), email), id)
  {
    hide RunsAddUp, Limited;
    match step
    case Publish(_, newId) => PublishKeepsRuns(LineOf(w, email), newId, id);
    case Act(_, action) => ActKeepsRuns(LineOf(w, email), action, id);
  }

  lemma {:induction false} RunsOverRuns(w: Worker, steps: seq<Step>, email: bool, id: nat)
    requires Good(w) && RunsAddUp(LineOf(w, email), id) && Crash !in steps
    ensures RunsAddUp(LineOf(RunAll(w, steps), email), id)
    decreases |steps|
  {
    hide Good, RunsAddUp, Next;
    if steps != [] {
      StepKeepsGood(w, steps[0]);
      StepKeepsRuns(w, steps[0], email, id);
      RunsOverRuns(Next(w, steps[0]), steps[1..], email, id);
    }
  }

  /** Each sending belongs to a handler run of its own. */
  ghost predicate SendingsFit(l: Line, id: nat) {
    l.sendings[id] + Sum(l.handling, IsId(id)) <= l.runs[id]
  }

  lemma ActKeepsSendings(l: Line, action: Action, id: nat)
    requires SendingsFit(l, id)
    ensures SendingsFit(ActOn(l, action), id)
  {
    match action
    case Deliver =>
      if l.ready != [] {
        SumAppend(l.handling, l.ready[0], IsId(id));
      }
    case SendOut(i) =>
      if i < |l.handling| {
        SumWithout(l.handling, i, IsId(id));
      }
    case Reject(i) =>
      if i < |l.handling| {
        SumWithout(l.handling, i, IsId(id));
      }
    case _ =>
  }

  lemma StepKeepsSendings(w: Worker, step: Step, email: bool, id: nat)
    requires SendingsFit(LineOf(w, email), id)
    ensures SendingsFit(LineOf(Next(w, step), email), id)
  {
    hide ActOn;
    var l := LineOf(w, email);
    SumNonnegative(l.handling, IsId(id));
    if step.Act? {
      ActKeepsSendings(l, step.action, id);
    }
  }

  lemma {:induction false} SendingsFitOverRuns(w: Worker, steps: seq<Step>, email: bool, id: nat)
    requires SendingsFit(LineOf(w, email), id)
    ensures SendingsFit(LineOf(RunAll(w, steps), email), id)
    decreases |steps|
  {
    hide SendingsFit, Next;
    if steps != [] {
      StepKeepsSendings(w, steps[0], email, id);
      SendingsFitOverRuns(Next(w, steps[0]), steps[1..], email, id);
    }
  }

  lemma NoCrashNoOccurrence(w: Worker, steps: seq<Step>, email: bool, id: nat)
    requires Crash !in steps
    ensures Occurrences(w, steps, IsDoubling(email, id)) == 0 && Occurrences(w, steps, IsDropping(email, id)) == 0
    decreases |steps|
  {
    hide Next;
    if steps != [] {
      NoCrashNoOccurrence(Next(w, steps[0]), steps[1..], email, id);
    }
  }

  ghost predicate Accounted(l: Line, id: nat) {
    && l.runs[id] <= MAX_RETRIES + 1
    && l.sendings[id] <= l.runs[id]
    && l.delivered[id] + l.alerted[id] <= IfPublished(l, id)
    && (l.alerted[id] == 1 ==> l.runs[id] == MAX_RETRIES + 1)
  }

  lemma RunsAreAccounted(l: Line, id: nat)
    requires Limited(l) && RunsAddUp(l, id) && SendingsFit(l, id) && Present(l, id) == IfPublished(l, id)
    ensures Accounted(l, id)
  {
    hide Value;
    ValueNonnegative(l, id);
    SumNonnegative(l.handling, IsId(id));
    if l.alerted[id] == 1 {
      NoCopiesNoRuns(l, id);
    }
  }

  lemma NoCopiesNoRuns(l: Line, id: nat)
    requires Limited(l) && Value(l, Copies(id)) == 0
    ensures Value(l, Allowance(id)) == 0
  {
    hide Limited;
    SumsNonnegativeParts(l, id);
    ZeroEverywhere(l.ready, id, true);
    ZeroEverywhere(l.handling, id, false);
    ZeroEverywhere(l.sent, id, false);
    ZeroEverywhere(l.dead, id, false);
  }

  lemma SumsNonnegativeParts(l: Line, id: nat)
    ensures Sum(l.ready, IsId(id)) >= 0 && Sum(l.handling, IsId(id)) >= 0
    ensures Sum(l.sent, IsId(id)) >= 0 && Sum(l.dead, IsId(id)) >= 0
  {
    SumNonnegative(l.ready, IsId(id));
    SumNonnegative(l.handling, IsId(id));
    SumNonnegative(l.sent, IsId(id));
    SumNonnegative(l.dead, IsId(id));
  }

  lemma {:induction false} ZeroEverywhere(s: seq<Message>, id: nat, before: bool)
    ensures Sum(s, IsId(id)) == 0 ==> Sum(s, RunsLeft(id, before)) == 0
  {
    if s != [] {
      SumNonnegative(s[1..], IsId(id));
      ZeroEverywhere(s[1..], id, before);
    }
  }

  /** Without crashes: at most four handler runs for a message and at most one sending in each; never both delivered and
      alerted, never either twice, and alerted only after exactly four runs. */
  lemma FourRunsAtMost(steps: seq<Step>, email: bool, id: nat)
    requires Crash !in steps
    ensures Accounted(LineOf(RunAll(Started(), steps), email), id)
  {
    hide Good, RunsAddUp, SendingsFit, Present, Accounted, RunAll, Limited;
    var w := RunAll(Started(), steps);
    StartIsGood();
    StartAddsUp(email, id);
    GoodOverRuns(Started(), steps);
    RunsOverRuns(Started(), steps, email, id);
    SendingsFitOverRuns(Started(), steps, email, id);
    NothingVanishes(steps, email, id);
    NoCrashNoOccurrence(Started(), steps, email, id);
    BothLimited(w);
    RunsAreAccounted(LineOf(w, email), id);
  }

  lemma BothLimited(w: Worker)
    requires Good(w)
    ensures Limited(w.email) && Limited(w.webhook)
  {
  }

  lemma StartAddsUp(email: bool, id: nat)
    ensures RunsAddUp(LineOf(Started(), email), id) && SendingsFit(LineOf(Started(), email), id)
  {
  }

  // ---------- Draining ----------

  function TotalWeight(w: Worker): int {
    Weight(w.email) + Weight(w.webhook)
  }

  /** How many of the steps change anything. */
  function Effective(w: Worker, steps: seq<Step>): nat
    decreases |steps|
  {
    if steps == [] then 0
    else (if Next(w, steps[0]) != w then 1 else 0) + Effective(Next(w, steps[0]), steps[1..])
  }

  lemma ActionLowersTotal(w: Worker, step: Step)
    requires Good(w) && step.Act?
    ensures Next(w, step) == w || TotalWeight(Next(w, step)) < TotalWeight(w)
  {
    hide Weight, ActOn, Limited;
    ActLowersWeight(LineOf(w, step.email), step.action);
  }

  /** When nothing new is published and nothing crashes, draining ends: a run has at most as many effective steps as
      the queues weigh. */
  lemma {:induction false} DrainingEnds(w: Worker, steps: seq<Step>)
    requires Good(w) && forall s :: s in steps ==> s.Act?
    ensures 0 <= Effective(w, steps) <= TotalWeight(w) - TotalWeight(RunAll(w, steps))
    ensures TotalWeight(RunAll(w, steps)) >= 0
    decreases |steps|
  {
    hide Good, Next, TotalWeight;
    if steps != [] {
      StepKeepsGood(w, steps[0]);
      ActionLowersTotal(w, steps[0]);
      DrainingEnds(Next(w, steps[0]), steps[1..]);
    } else {
      TotalNonnegative(w);
    }
  }

  lemma TotalNonnegative(w: Worker)
    requires Good(w)
    ensures TotalWeight(w) >= 0
  {
    hide Weight;
    ValueNonnegative(w.email, 0);
    ValueNonnegative(w.webhook, 0);
  }

  /** No action does anything any more. */
  ghost predicate Resting(w: Worker) {
    forall email, action :: Next(w, Act(email, action)) == w
  }

  /** And it ends with nothing left: when no action does anything, nothing is on its way. */
  lemma RestIsEmpty(w: Worker, email: bool)
    requires Resting(w)
    ensures
      var l := LineOf(w, email);
      l.ready == [] && l.handling == [] && l.sent == [] && l.dead == [] && l.held == Idle
  {
    AtRest(w, email, !email);
  }

  /** After a run without crashes that has come to rest, each published message is delivered or alerted, exactly once,
      and it was sent once for its delivery and once for each late rejection. */
  lemma EachDeliveredOrAlertedOnce(steps: seq<Step>, email: bool, id: nat)
    requires Crash !in steps && Resting(RunAll(Started(), steps))
    ensures
      var l := LineOf(RunAll(Started(), steps), email);
      && l.delivered[id] + l.alerted[id] == IfPublished(l, id)
      && l.sendings[id] == l.delivered[id] + AllHits(Started(), steps, email, id)
  {
    hide RunAll, Resting, AllHits, Occurrences;
    RestIsEmpty(RunAll(Started(), steps), email);
    NothingVanishes(steps, email, id);
    NoCrashNoOccurrence(Started(), steps, email, id);
    SendingsOverRuns(steps, email, id);
  }

  lemma AtRest(w: Worker, email: bool, other: bool)
    requires forall action :: Next(w, Act(email, action)) == w
    requires forall action :: Next(w, Act(other, action)) == w
    requires email != other
    ensures
      var l := LineOf(w, email);
      l.ready == [] && l.handling == [] && l.sent == [] && l.dead == [] && l.held == Idle
  {
    assert Next(w, Act(email, Deliver)) == w;
    assert Next(w, Act(email, SendOut(0))) == w && Next(w, Act(email, Ack(0))) == w;
    HeldMoves(w, email);
    HeldMoves(w, other);
    assert Next(w, Act(email, Take)) == w;
  }

  lemma HeldMoves(w: Worker, email: bool)
    requires forall action :: Next(w, Act(email, action)) == w
    ensures LineOf(w, email).held == Idle
  {
    assert Next(w, Act(email, Republish)) == w && Next(w, Act(email, AckRetry)) == w;
    assert Next(w, Act(email, AckExhausted)) == w && Next(w, Act(email, Alert)) == w;
  }

  // ---------- What goes wrong with crashes ----------

  lemma {:induction false} RunJoin(w: Worker, a: seq<Step>, b: seq<Step>)
    ensures RunAll(w, a + b) == RunAll(RunAll(w, a), b)
    decreases |a|
  {
    hide Next;
    if a == [] {
      assert a + b == b;
    } else {
      assert (a + b)[1..] == a[1..] + b;
      RunJoin(Next(w, a[0]), a[1..], b);
    }
  }

  /** One failed handling and one republishing of an e-mail notification. */
  function Round(): seq<Step> {
    [Act(true, Deliver), Act(true, Reject(0)), Act(true, Take), Act(true, Republish), Act(true, AckRetry)]
  }

  /** The last failed handling, the acknowledgement, and a crash before the report. */
  function LastRound(): seq<Step> {
    [Act(true, Deliver), Act(true, Reject(0)), Act(true, Take), Act(true, AckExhausted), Crash]
  }

  ghost predicate OneWaiting(w: Worker, m: Message) {
    && w.email.ready == [m] && w.email.handling == [] && w.email.sent == [] && w.email.dead == []
    && w.email.held == Idle && w.webhook.held == Idle
    && w.email.delivered == multiset{} && w.email.alerted == multiset{}
  }

  lemma FiveSteps(w: Worker, steps: seq<Step>)
    requires |steps| == 5
    ensures RunAll(w, steps) == Next(Next(Next(Next(Next(w, steps[0]), steps[1]), steps[2]), steps[3]), steps[4])
  {
    hide Next;
    var w1 := Next(w, steps[0]);
    var w2 := Next(w1, steps[1]);
    var w3 := Next(w2, steps[2]);
    var w4 := Next(w3, steps[3]);
    assert steps[1..][1..] == steps[2..] && steps[2..][1..] == steps[3..] && steps[3..][1..] == steps[4..];
    assert RunAll(w, steps) == RunAll(w1, steps[1..]);
    assert RunAll(w1, steps[1..]) == RunAll(w2, steps[2..]);
    assert RunAll(w2, steps[2..]) == RunAll(w3, steps[3..]);
    assert RunAll(w3, steps[3..]) == RunAll(w4, steps[4..]);
    assert RunAll(w4, steps[4..]) == RunAll(Next(w4, steps[4]), steps[4..][1..]);
  }

  lemma RoundRaisesAttempt(w: Worker, m: Message)
    requires OneWaiting(w, m) && m.attempt < MAX_RETRIES
    ensures OneWaiting(RunAll(w, Round()), Message(m.id, m.attempt + 1))
    ensures RunAll(w, Round()).email.published == w.email.published
  {
    hide RunAll;
    FiveSteps(w, Round());
    FailsIntoTaken(w, m);
  }

  lemma FailsIntoTaken(w: Worker, m: Message)
    requires OneWaiting(w, m)
    ensures
      var w' := Next(Next(Next(w, Act(true, Deliver)), Act(true, Reject(0))), Act(true, Take));
      w' == w.(email := w.email.(ready := [], held := Taken(m), runs := w.email.runs + multiset{m.id}))
  {
    var w2 := Next(Next(w, Act(true, Deliver)), Act(true, Reject(0)));
    assert w2.email.dead == [m] && w2.email.handling == [] && w2.email.ready == [];
  }

  /** A message is neither anywhere nor delivered nor alerted. */
  predicate Gone(l: Line, id: nat) {
    && l.ready == [] && l.handling == [] && l.sent == [] && l.dead == [] && l.held == Idle
    && l.delivered[id] == 0 && l.alerted[id] == 0
  }

  lemma LastRoundLoses(w: Worker, m: Message)
    requires OneWaiting(w, m) && m.attempt == MAX_RETRIES
    ensures Gone(RunAll(w, LastRound()).email, m.id) && RunAll(w, LastRound()).email.published == w.email.published
  {
    hide RunAll;
    FiveSteps(w, LastRound());
    FailsIntoTaken(w, m);
  }

  function FourFailures(id: nat): seq<Step> {
    [Publish(true, id)] + (Round() + (Round() + (Round() + LastRound())))
  }

  /** A message that fails four times and whose report is cut off by a crash is gone. */
  lemma AlertCanBeLost(id: nat)
    ensures var l := RunAll(Started(), FourFailures(id)).email; id in l.published && Gone(l, id)
  {
    hide RunAll, Round, LastRound, Gone;
    var w0 := Next(Started(), Publish(true, id));
    RoundRaisesAttempt(w0, Message(id, 0));
    var w1 := RunAll(w0, Round());
    RoundRaisesAttempt(w1, Message(id, 1));
    var w2 := RunAll(w1, Round());
    RoundRaisesAttempt(w2, Message(id, 2));
    LastRoundLoses(RunAll(w2, Round()), Message(id, 3));
    RunJoin(w0, Round(), Round() + (Round() + LastRound()));
    RunJoin(w1, Round(), Round() + LastRound());
    RunJoin(w2, Round(), LastRound());
    PublishThen(id, Round() + (Round() + (Round() + LastRound())));
  }

  function SentTwice(id: nat): seq<Step> {
    [Act(true, Deliver), Act(true, SendOut(0)), Crash, Act(true, Deliver), Act(true, SendOut(0))]
  }

  /** A crash between the sending and its acknowledgement has the mail sent twice. */
  lemma CrashSendsTwice(id: nat)
    ensures RunAll(Started(), [Publish(true, id)] + SentTwice(id)).email.sendings[id] == 2
  {
    hide RunAll;
    var w := Next(Started(), Publish(true, id));
    PublishThen(id, SentTwice(id));
    FiveSteps(w, SentTwice(id));
    var sent := Next(Next(w, Act(true, Deliver)), Act(true, SendOut(0)));
    assert sent.email.sent == [Message(id, 0)] && sent.email.handling == [] && sent.email.ready == [];
    assert Next(sent, Crash).email.ready == [Message(id, 0)];
  }

  lemma PublishThen(id: nat, rest: seq<Step>)
    ensures RunAll(Started(), [Publish(true, id)] + rest) == RunAll(Next(Started(), Publish(true, id)), rest)
  {
    assert ([Publish(true, id)] + rest)[1..] == rest;
  }

  /** A failed handling, and a crash between the republishing and its acknowledgement. */
  function Doubling(): seq<Step> {
    [Act(true, Deliver), Act(true, Reject(0)), Act(true, Take), Act(true, Republish), Crash]
  }

  /** The two copies are sent and acknowledged, one after the other; then the dead-letter queue is empty. */
  function BothSent(): seq<Step> {
    [Act(true, Deliver), Act(true, SendOut(0)), Act(true, Ack(0)), Act(true, Take), Act(true, Republish)]
    + [Act(true, AckRetry), Act(true, Deliver), Act(true, SendOut(0)), Act(true, Ack(0)), Act(true, Take)]
  }

  lemma DoublesMessage(w: Worker, id: nat)
    requires OneWaiting(w, Message(id, 0)) && w.email.sendings == multiset{}
    ensures
      var l := RunAll(w, Doubling()).email;
      && l.ready == [Message(id, 1)] && l.dead == [Message(id, 0)] && l.handling == [] && l.sent == [] && l.held == Idle
      && l.sendings == multiset{} && l.delivered == multiset{} && RunAll(w, Doubling()).webhook.held == Idle
  {
    hide RunAll;
    FiveSteps(w, Doubling());
    FailsIntoTaken(w, Message(id, 0));
  }

  lemma SendsBoth(w: Worker, id: nat)
    requires w.email.ready == [Message(id, 1)] && w.email.dead == [Message(id, 0)] && w.email.handling == []
    requires w.email.sent == [] && w.email.held == Idle && w.webhook.held == Idle
    requires w.email.sendings == multiset{} && w.email.delivered == multiset{}
    ensures
      var l := RunAll(w, BothSent()).email;
      l.sendings[id] == 2 && l.delivered[id] == 2 && l.ready == [] && l.dead == [] && l.handling == [] && l.sent == []
  {
    hide RunAll;
    var first, second := BothSent()[..5], BothSent()[5..];
    assert BothSent() == first + second;
    RunJoin(w, first, second);
    FiveSteps(w, first);
    FirstCopy(w, id);
    FiveSteps(RunAll(w, first), second);
    SecondCopy(RunAll(w, first), id);
  }

  lemma FirstCopy(w: Worker, id: nat)
    requires w.email.ready == [Message(id, 1)] && w.email.dead == [Message(id, 0)] && w.email.handling == []
    requires w.email.sent == [] && w.email.held == Idle && w.webhook.held == Idle
    requires w.email.sendings == multiset{} && w.email.delivered == multiset{}
    ensures
      var w' := Next(Next(Next(Next(Next(w, Act(true, Deliver)), Act(true, SendOut(0))), Act(true, Ack(0))),
                          Act(true, Take)), Act(true, Republish));
      && w'.email.ready == [Message(id, 1)] && w'.email.dead == [] && w'.email.handling == [] && w'.email.sent == []
      && w'.email.held == Republished(Message(id, 0)) && w'.webhook.held == Idle
      && w'.email.sendings == multiset{id} && w'.email.delivered == multiset{id}
  {
    var w1 := Next(w, Act(true, Deliver));
    assert w1.email.ready == [] && w1.email.handling == [Message(id, 1)];
    var w3 := Next(Next(w1, Act(true, SendOut(0))), Act(true, Ack(0)));
    assert w3.email.handling == [] && w3.email.sent == [] && w3.email.ready == [];
  }

  lemma SecondCopy(w: Worker, id: nat)
    requires w.email.ready == [Message(id, 1)] && w.email.dead == [] && w.email.handling == [] && w.email.sent == []
    requires w.email.held == Republished(Message(id, 0)) && w.webhook.held == Idle
    requires w.email.sendings == multiset{id} && w.email.delivered == multiset{id}
    ensures
      var l := Next(Next(Next(Next(Next(w, Act(true, AckRetry)), Act(true, Deliver)), Act(true, SendOut(0))),
                         Act(true, Ack(0))), Act(true, Take)).email;
      l.sendings[id] == 2 && l.delivered[id] == 2 && l.ready == [] && l.dead == [] && l.handling == [] && l.sent == []
  {
    var w2 := Next(Next(w, Act(true, AckRetry)), Act(true, Deliver));
    assert w2.email.ready == [] && w2.email.handling == [Message(id, 1)];
    var w4 := Next(Next(w2, Act(true, SendOut(0))), Act(true, Ack(0)));
    assert w4.email.handling == [] && w4.email.sent == [] && w4.email.ready == [];
  }

  /** A crash that doubles a message has the mail sent twice although every sending is acknowledged. */
  lemma DoublingSendsTwice(id: nat)
    ensures
      var l := RunAll(Started(), [Publish(true, id)] + (Doubling() + BothSent())).email;
      l.sendings[id] == 2 && Unacknowledged(l, id) == 0
  {
    hide RunAll, Doubling, BothSent;
    var w := Next(Started(), Publish(true, id));
    PublishThen(id, Doubling() + BothSent());
    RunJoin(w, Doubling(), BothSent());
    DoublesMessage(w, id);
    SendsBoth(RunAll(w, Doubling()), id);
  }

  /** The last handling sends the mail but fails after that. */
  function LateRound(): seq<Step> {
    [Act(true, Deliver), Act(true, SendOut(0)), Act(true, RejectLate(0)), Act(true, Take), Act(true, AckExhausted)]
  }

  lemma LateRoundAlerts(w: Worker, m: Message)
    requires OneWaiting(w, m) && m.attempt == MAX_RETRIES
    ensures
      var l := Next(RunAll(w, LateRound()), Act(true, Alert)).email;
      l.alerted[m.id] == 1 && l.delivered[m.id] == 0 && l.sendings[m.id] == w.email.sendings[m.id] + 1
  {
    hide RunAll, Next;
    FiveSteps(w, LateRound());
    SendsIntoTaken(w, m);
    GivesUp(w.(email := w.email.(ready := [], held := Taken(m), runs := w.email.runs + multiset{m.id},
                                 sendings := w.email.sendings + multiset{m.id})), m);
  }

  lemma GivesUp(w: Worker, m: Message)
    requires w.email.held == Taken(m) && m.attempt == MAX_RETRIES
    ensures
      Next(Next(w, Act(true, AckExhausted)), Act(true, Alert))
      == w.(email := w.email.(held := Idle, alerted := w.email.alerted + multiset{m.id}))
  {
  }

  lemma SendsIntoTaken(w: Worker, m: Message)
    requires OneWaiting(w, m)
    ensures
      var sent := Next(Next(w, Act(true, Deliver)), Act(true, SendOut(0)));
      Next(Next(sent, Act(true, RejectLate(0))), Act(true, Take))
      == w.(email := w.email.(ready := [], held := Taken(m), runs := w.email.runs + multiset{m.id},
                              sendings := w.email.sendings + multiset{m.id}))
  {
    var sent := Next(Next(w, Act(true, Deliver)), Act(true, SendOut(0)));
    assert sent == w.(email := w.email.(ready := [], sent := [m], runs := w.email.runs + multiset{m.id},
                                        sendings := w.email.sendings + multiset{m.id})) by {
      assert sent.email.sent == [m] && sent.email.handling == [] && sent.email.ready == [];
    }
    var late := Next(sent, Act(true, RejectLate(0)));
    assert late.email.dead == [m] && late.email.sent == [];
  }

  function LateFailure(id: nat): seq<Step> {
    [Publish(true, id)] + (Round() + (Round() + (Round() + (LateRound() + [Act(true, Alert)]))))
  }

  /** A late rejection need not lead to another sending: after the fourth handling the message that was sent is alerted
      as failed. */
  lemma SentYetAlerted(id: nat)
    ensures
      var l := RunAll(Started(), LateFailure(id)).email;
      l.alerted[id] == 1 && l.delivered[id] == 0 && l.sendings[id] >= 1
  {
    hide RunAll, Round, LateRound;
    var w0 := Next(Started(), Publish(true, id));
    RoundRaisesAttempt(w0, Message(id, 0));
    var w1 := RunAll(w0, Round());
    RoundRaisesAttempt(w1, Message(id, 1));
    var w2 := RunAll(w1, Round());
    RoundRaisesAttempt(w2, Message(id, 2));
    var w3 := RunAll(w2, Round());
    LateRoundAlerts(w3, Message(id, 3));
    var last := LateRound() + [Act(true, Alert)];
    RunJoin(w0, Round(), Round() + (Round() + last));
    RunJoin(w1, Round(), Round() + last);
    RunJoin(w2, Round(), last);
    RunJoin(w3, LateRound(), [Act(true, Alert)]);
    OneMoreStep(RunAll(w3, LateRound()), Act(true, Alert));
    PublishThen(id, Round() + (Round() + (Round() + last)));
  }

  lemma OneMoreStep(w: Worker, step: Step)
    ensures RunAll(w, [step]) == Next(w, step)
  {
    hide Next;
    assert [step][1..] == [];
    assert RunAll(Next(w, step), []) == Next(w, step);
  }

  // ---------- The loops ----------

  /** Whether a message in the main queue will be delivered in the end, given which handler runs succeed. */
  predicate Reaches(m: Message, succeeds: Message -> bool)
    decreases MAX_RETRIES - m.attempt
  {
    succeeds(m) || (m.attempt < MAX_RETRIES && Reaches(m.(attempt := m.attempt + 1), succeeds))
  }

  predicate ReachesFromDead(m: Message, succeeds: Message -> bool) {
    m.attempt < MAX_RETRIES && Reaches(m.(attempt := m.attempt + 1), succeeds)
  }

  function Fate(id: nat, succeeds: Message -> bool, reached: bool): Message -> int {
    (m: Message) => if m.id == id && Reaches(m, succeeds) == reached then 1 else 0
  }

  function DeadFate(id: nat, succeeds: Message -> bool, reached: bool): Message -> int {
    (m: Message) => if m.id == id && ReachesFromDead(m, succeeds) == reached then 1 else 0
  }

  /** How often a message is delivered (or alerted) already, or will be. */
  function Due(ready: seq<Message>, dead: seq<Message>, done: multiset<nat>, id: nat, succeeds: Message -> bool,
               reached: bool): int
  {
    done[id] + Sum(ready, Fate(id, succeeds, reached)) + Sum(dead, DeadFate(id, succeeds, reached))
  }

  function QueueWeight(ready: seq<Message>, dead: seq<Message>): int {
    Sum(ready, Level(6)) + Sum(dead, Level(3))
  }

  /** One channel with nothing running beside it: its two queues and the outcomes. */
  class Broker {
    var ready: seq<Message>
    var dead: seq<Message>
    var delivered: multiset<nat>
    var alerted: multiset<nat>

    ghost predicate Valid()
      reads this
    {
      forall m :: m in ready || m in dead ==> m.attempt <= MAX_RETRIES
    }

    ghost predicate Owes(succeeds: Message -> bool, deliveries: nat -> int, alerts: nat -> int)
      reads this
    {
      forall id ::
        && Due(ready, dead, delivered, id, succeeds, true) == deliveries(id)
        && Due(ready, dead, alerted, id, succeeds, false) == alerts(id)
    }

    constructor (messages: seq<Message>)
      ensures ready == messages && dead == [] && delivered == multiset{} && alerted == multiset{}
    {
      ready, dead, delivered, alerted := messages, [], multiset{}, multiset{};
    }

    method HandleOne(succeeds: Message -> bool)
      requires Valid() && ready != []
      modifies this
      ensures Valid() && ready == old(ready)[1..] && alerted == old(alerted)
      ensures
        var m := old(ready)[0];
        if succeeds(m) then dead == old(dead) && delivered == old(delivered) + multiset{m.id}
        else dead == old(dead) + [m] && delivered == old(delivered)
    {
      var m := ready[0];
      ready := ready[1..];
      if succeeds(m) {
        delivered := delivered + multiset{m.id};
      } else {
        dead := dead + [m];
      }
    }

    method RetryOne()
      requires Valid() && dead != []
      modifies this
      ensures Valid() && dead == old(dead)[1..] && delivered == old(delivered)
      ensures
        var m := old(dead)[0];
        if m.attempt + 1 > MAX_RETRIES then ready == old(ready) && alerted == old(alerted) + multiset{m.id}
        else ready == old(ready) + [m.(attempt := m.attempt + 1)] && alerted == old(alerted)
    {
      var m := dead[0];
      dead := dead[1..];
      var attempt := m.attempt + 1;
      if attempt > MAX_RETRIES {
        alerted := alerted + multiset{m.id};
      } else {
        ready := ready + [m.(attempt := attempt)];
      }
    }

    /** Handlers and retry loop take turns until both queues are empty; then each message has been delivered or
        alerted according to which of its handler runs succeed. */
    method Drain(succeeds: Message -> bool)
      requires Valid()
      modifies this
      ensures ready == [] && dead == []
      ensures forall id ::
                && delivered[id] == old(Due(ready, dead, delivered, id, succeeds, true))
                && alerted[id] == old(Due(ready, dead, alerted, id, succeeds, false))
    {
      ghost var deliveries: nat -> int := DueLater(ready, dead, delivered, succeeds, true);
      ghost var alerts: nat -> int := DueLater(ready, dead, alerted, succeeds, false);
      while ready != [] || dead != []
        invariant Valid() && Owes(succeeds, deliveries, alerts)
        decreases QueueWeight(ready, dead)
      {
        ghost var ready0, dead0, delivered0, alerted0 := ready, dead, delivered, alerted;
        WeightNonnegative(ready, dead);
        if ready != [] {
          HandleOne(succeeds);
          HandlingKeepsDue(ready0, dead0, delivered0, alerted0, ready, dead, delivered, alerted, succeeds);
        } else {
          RetryOne();
          RetryKeepsDue(ready0, dead0, delivered0, alerted0, ready, dead, delivered, alerted, succeeds);
        }
        assert forall id :: Due(ready, dead, delivered, id, succeeds, true) == deliveries(id)
                         && Due(ready, dead, alerted, id, succeeds, false) == alerts(id);
      }
      assert forall id :: Due(ready, dead, delivered, id, succeeds, true) == deliveries(id)
                       && Due(ready, dead, alerted, id, succeeds, false) == alerts(id);
    }
  }

  function DueLater(ready: seq<Message>, dead: seq<Message>, done: multiset<nat>, succeeds: Message -> bool,
                    reached: bool): nat -> int
  {
    (id: nat) => Due(ready, dead, done, id, succeeds, reached)
  }

  lemma WeightNonnegative(ready: seq<Message>, dead: seq<Message>)
    requires forall m :: m in ready || m in dead ==> m.attempt <= MAX_RETRIES
    ensures QueueWeight(ready, dead) >= 0
  {
    SumNonnegative(ready, Level(6));
    SumNonnegative(dead, Level(3));
  }

  lemma HandlingKeepsDue(ready: seq<Message>, dead: seq<Message>, delivered: multiset<nat>, alerted: multiset<nat>,
                         ready': seq<Message>, dead': seq<Message>, delivered': multiset<nat>, alerted': multiset<nat>,
                         succeeds: Message -> bool)
    requires ready != [] && ready' == ready[1..] && alerted' == alerted
    requires if succeeds(ready[0]) then dead' == dead && delivered' == delivered + multiset{ready[0].id}
             else dead' == dead + [ready[0]] && delivered' == delivered
    ensures forall id ::
              && Due(ready', dead', delivered', id, succeeds, true) == Due(ready, dead, delivered, id, succeeds, true)
              && Due(ready', dead', alerted', id, succeeds, false) == Due(ready, dead, alerted, id, succeeds, false)
    ensures QueueWeight(ready', dead') < QueueWeight(ready, dead) || ready[0].attempt > MAX_RETRIES
  {
    var m := ready[0];
    SumAppend(dead, m, Level(3));
    forall id
      ensures Due(ready', dead', delivered', id, succeeds, true) == Due(ready, dead, delivered, id, succeeds, true)
      ensures Due(ready', dead', alerted', id, succeeds, false) == Due(ready, dead, alerted, id, succeeds, false)
    {
      SumAppend(dead, m, DeadFate(id, succeeds, true));
      SumAppend(dead, m, DeadFate(id, succeeds, false));
    }
  }

  lemma RetryKeepsDue(ready: seq<Message>, dead: seq<Message>, delivered: multiset<nat>, alerted: multiset<nat>,
                      ready': seq<Message>, dead': seq<Message>, delivered': multiset<nat>, alerted': multiset<nat>,
                      succeeds: Message -> bool)
    requires dead != [] && dead' == dead[1..] && delivered' == delivered
    requires
      var m := dead[0];
      if m.attempt + 1 > MAX_RETRIES then ready' == ready && alerted' == alerted + multiset{m.id}
      else ready' == ready + [m.(attempt := m.attempt + 1)] && alerted' == alerted
    ensures forall id ::
              && Due(ready', dead', delivered', id, succeeds, true) == Due(ready, dead, delivered, id, succeeds, true)
              && Due(ready', dead', alerted', id, succeeds, false) == Due(ready, dead, alerted, id, succeeds, false)
    ensures QueueWeight(ready', dead') < QueueWeight(ready, dead) || dead[0].attempt > MAX_RETRIES
  {
    var m := dead[0].(attempt := dead[0].attempt + 1);
    SumAppend(ready, m, Level(6));
    forall id
      ensures Due(ready', dead', delivered', id, succeeds, true) == Due(ready, dead, delivered, id, succeeds, true)
      ensures Due(ready', dead', alerted', id, succeeds, false) == Due(ready, dead, alerted, id, succeeds, false)
    {
      SumAppend(ready, m, Fate(id, succeeds, true));
      SumAppend(ready, m, Fate(id, succeeds, false));
    }
  }
}
