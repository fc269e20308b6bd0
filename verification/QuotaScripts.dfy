/** The four atomic quota scripts, as functions on the Redis keys they touch, and as a store that runs them in place. */
module QuotaScripts {
  import opened Amounts

  /** A user uuid, as a number. */
  type UserId = nat

  /** Stands for a fresh uuid4: one request never holds two reservations for the same dimension. */
  datatype ReservationId = ReservationId(request: nat, charge: Dim)

  /** A reservation hash. */
  datatype Hold = Hold(user: UserId, delta: Amount, committed: bool)

  /** Usage hashes per user, reservation hashes, and the sorted set that indexes them by expiry time. */
  datatype Redis = Redis(usage: map<UserId, Amount>, holds: map<ReservationId, Hold>, index: map<ReservationId, int>) {

    function Counter(user: UserId, absent: Amount): Amount {
      if user in usage then usage[user] else absent
    }

    /** Outside a script no hash is flagged committed, and the index lists exactly the hashes. */
    ghost predicate WellFormed() {
      && index.Keys == holds.Keys
      && (forall rid :: rid in holds ==> !holds[rid].committed && holds[rid].user in usage)
    }
  }

  datatype Reply = Accepted(now: Amount) | Denied(code: nat, now: Amount)

  function Reserve(r: Redis, user: UserId, rid: ReservationId, delta: Amount, limit: Amount, expiresAt: int,
                   initial: Amount)
    : (Redis, Reply)
  {
    var current := r.Counter(user, initial);
    var primed := r.(usage := r.usage[user := current]);
    if current.secrets + delta.secrets > limit.secrets then (primed, Denied(1, current))
    else if current.bytes + delta.bytes > limit.bytes then (primed, Denied(2, current))
    else (Redis(r.usage[user := current.Plus(delta)],
                r.holds[rid := Hold(user, delta, false)],
                r.index[rid := expiresAt]),
          Accepted(current.Plus(delta)))
  }

  function Release(r: Redis, user: UserId, rid: ReservationId): Redis {
    if rid !in r.holds then r
    else
      Redis(if r.holds[rid].committed then r.usage
            else r.usage[user := r.Counter(user, Zero()).Minus(r.holds[rid].delta)],
            r.holds - {rid},
            r.index - {rid})
  }

  function Commit(r: Redis, rid: ReservationId): Redis {
    if rid !in r.holds then r else r.(holds := r.holds - {rid}, index := r.index - {rid})
  }

  predicate Bears(r: Redis, user: UserId, rid: ReservationId) {
    rid in r.holds && r.holds[rid].user == user && !r.holds[rid].committed
  }

  function DeltaOf(holds: map<ReservationId, Hold>): ReservationId -> Amount {
    (rid: ReservationId) => if rid in holds then holds[rid].delta else Zero()
  }

  /** What the given reservations hold. */
  ghost function Deltas(holds: map<ReservationId, Hold>, rids: set<ReservationId>): map<ReservationId, Amount> {
    Tabulate(rids, DeltaOf(holds))
  }

  lemma DeltasAre(holds: map<ReservationId, Hold>, rids: set<ReservationId>)
    ensures Deltas(holds, rids).Keys == rids
    ensures forall rid :: rid in rids && rid in holds ==> Deltas(holds, rids)[rid] == holds[rid].delta
  {
    Tabulated(rids, DeltaOf(holds));
  }

  /** The reservations that the reconcile script adds for a user, restricted to the given index entries. */
  function ListedIds(r: Redis, user: UserId, among: set<ReservationId>): set<ReservationId> {
    set rid | rid in among && Bears(r, user, rid)
  }

  ghost function Listed(r: Redis, user: UserId, among: set<ReservationId>): map<ReservationId, Amount> {
    Deltas(r.holds, ListedIds(r, user, among))
  }

  ghost function Owed(r: Redis, user: UserId, keys: set<ReservationId>): Amount {
    Total(Listed(r, user, keys))
  }

  ghost function Reconcile(r: Redis, user: UserId, durable: Amount): Redis {
    r.(usage := r.usage[user := durable.Plus(Owed(r, user, r.index.Keys))])
  }

  /** The reaper's treatment of one key that its range query returned. */
  function ReapKey(r: Redis, rid: ReservationId): Redis {
    if rid in r.holds then Release(r, r.holds[rid].user, rid)
    else r.(index := r.index - {rid})
  }

  // ---------- What one script does to the whole ledger ----------

  lemma ScriptsKeepWellFormed(r: Redis, user: UserId, rid: ReservationId, delta: Amount, limit: Amount, at: int,
                              amount: Amount)
    requires r.WellFormed()
    ensures Reserve(r, user, rid, delta, limit, at, amount).0.WellFormed()
    ensures Release(r, user, rid).WellFormed()
    ensures Commit(r, rid).WellFormed()
    ensures ReapKey(r, rid).WellFormed()
    ensures Reconcile(r, user, amount).WellFormed()
  {
  }

  /** A reservation is granted exactly when both new counters fit; a denial names the first limit that does not and
      leaves no reservation; no other user is touched. */
  lemma AcceptedIffBothFit(r: Redis, user: UserId, rid: ReservationId, delta: Amount, limit: Amount, at: int,
                           initial: Amount)
    ensures
      var (r', reply) := Reserve(r, user, rid, delta, limit, at, initial);
      var current := r.Counter(user, initial);
      && (reply.Accepted? <==> current.Plus(delta).Leq(limit))
      && (reply.Denied? ==> reply.code == if current.secrets + delta.secrets > limit.secrets then 1 else 2)
      && reply.now == (if reply.Accepted? then current.Plus(delta) else current)
      && r'.usage == r.usage[user := reply.now]
      && r'.holds == (if reply.Accepted? then r.holds[rid := Hold(user, delta, false)] else r.holds)
      && r'.index == (if reply.Accepted? then r.index[rid := at] else r.index)
  {
  }

  /** Releasing a granted reservation restores the ledger; committing it keeps only the charge. */
  lemma SettlingUndoesOrKeeps(r: Redis, user: UserId, rid: ReservationId, delta: Amount, limit: Amount, at: int,
                              initial: Amount)
    requires rid !in r.holds && rid !in r.index
    requires Reserve(r, user, rid, delta, limit, at, initial).1.Accepted?
    ensures
      var held := Reserve(r, user, rid, delta, limit, at, initial).0;
      var before := r.Counter(user, initial);
      && Release(held, user, rid) == r.(usage := r.usage[user := before])
      && Commit(held, rid) == r.(usage := r.usage[user := before.Plus(delta)])
  {
    var held := Reserve(r, user, rid, delta, limit, at, initial).0;
    assert held.holds - {rid} == r.holds;
    assert held.index - {rid} == r.index;
    var undone := Release(held, user, rid);
    assert undone.usage == r.usage[user := r.Counter(user, initial)];
    assert Commit(held, rid).usage == r.usage[user := r.Counter(user, initial).Plus(delta)];
  }

  // ---------- The first settlement decides ----------

  datatype Settlement = ByCommit | ByRelease | ByReaper

  function Settle(r: Redis, user: UserId, rid: ReservationId, how: Settlement): Redis {
    match how
    case ByCommit => Commit(r, rid)
    case ByRelease => Release(r, user, rid)
    case ByReaper => if rid in r.index then ReapKey(r, rid) else r
  }

  function SettleAll(r: Redis, user: UserId, rid: ReservationId, hows: seq<Settlement>): Redis
    decreases |hows|
  {
    if hows == [] then r else SettleAll(Settle(r, user, rid, hows[0]), user, rid, hows[1..])
  }

  lemma {:induction false} SettledStaysSettled(r: Redis, user: UserId, rid: ReservationId, hows: seq<Settlement>)
    requires rid !in r.holds && rid !in r.index
    ensures SettleAll(r, user, rid, hows) == r
  {
    if hows != [] {
      SettledStaysSettled(r, user, rid, hows[1..]);
    }
  }

  /** For any order and repetition of commit, release and reap, only the first one has an effect. */
  lemma FirstSettlementDecides(r: Redis, user: UserId, rid: ReservationId, hows: seq<Settlement>)
    requires r.WellFormed() && rid in r.holds && r.holds[rid].user == user
    requires hows != []
    ensures
      var r' := SettleAll(r, user, rid, hows);
      var delta := r.holds[rid].delta;
      && r'.holds == r.holds - {rid} && r'.index == r.index - {rid}
      && r'.usage == if hows[0].ByCommit? then r.usage else r.usage[user := r.usage[user].Minus(delta)]
  {
    SettledStaysSettled(Settle(r, user, rid, hows[0]), user, rid, hows[1..]);
  }

  // ---------- Reaping as one step ----------

  /** The keys that the reaper's range query over [0, now] returns. */
  function Expired(r: Redis, now: int): set<ReservationId> {
    set rid | rid in r.index && 0 <= r.index[rid] <= now
  }

  /** The ledger after exactly the given index entries have been reaped. */
  ghost predicate ReapedTo(r: Redis, keys: set<ReservationId>, r': Redis) {
    && r'.holds == r.holds - keys
    && r'.index == r.index - keys
    && r.usage.Keys <= r'.usage.Keys
    && (r.WellFormed() ==> r'.usage.Keys == r.usage.Keys)
    && forall user :: r'.Counter(user, Zero()) == r.Counter(user, Zero()).Minus(Owed(r, user, keys))
  }

  lemma ReapNothing(r: Redis)
    ensures ReapedTo(r, {}, r)
  {
    assert r.holds - {} == r.holds && r.index - {} == r.index;
    forall user ensures Owed(r, user, {}) == Zero() {
      NothingListed(r, user);
    }
  }

  lemma OwedOneMore(r: Redis, user: UserId, keys: set<ReservationId>, rid: ReservationId)
    requires rid !in keys
    ensures
      Owed(r, user, keys + {rid}) == if Bears(r, user, rid) then Owed(r, user, keys).Plus(r.holds[rid].delta)
        else Owed(r, user, keys)
  {
    hide Total, Deltas;
    var before, after := ListedIds(r, user, keys), ListedIds(r, user, keys + {rid});
    if Bears(r, user, rid) {
      assert after == before + {rid};
      OneMoreDelta(r.holds, before, rid);
    } else {
      assert after == before;
    }
  }

  lemma NothingListed(r: Redis, user: UserId)
    ensures Owed(r, user, {}) == Zero()
  {
    hide Total, Deltas;
    assert ListedIds(r, user, {}) == {};
    DeltasAre(r.holds, {});
    TotalEmpty(Deltas(r.holds, {}));
  }

  lemma OneMoreDelta(holds: map<ReservationId, Hold>, rids: set<ReservationId>, rid: ReservationId)
    requires rid in holds && rid !in rids && rids <= holds.Keys
    ensures Total(Deltas(holds, rids + {rid})) == Total(Deltas(holds, rids)).Plus(holds[rid].delta)
  {
    hide Total, Deltas;
    var before, after := Deltas(holds, rids), Deltas(holds, rids + {rid});
    DeltasAre(holds, rids);
    DeltasAre(holds, rids + {rid});
    assert after == before[rid := holds[rid].delta];
    TotalPut(before, rid, holds[rid].delta);
  }

  lemma ReapedKeys(r: Redis, keys: set<ReservationId>, r': Redis, rid: ReservationId)
    requires r'.holds == r.holds - keys && r'.index == r.index - keys
    ensures ReapKey(r', rid).holds == r.holds - (keys + {rid})
    ensures ReapKey(r', rid).index == r.index - (keys + {rid})
  {
  }

  lemma ReapOneMore(r: Redis, keys: set<ReservationId>, r': Redis, rid: ReservationId)
    requires ReapedTo(r, keys, r') && rid !in keys
    ensures ReapedTo(r, keys + {rid}, ReapKey(r', rid))
  {
    var r'' := ReapKey(r', rid);
    ReapedKeys(r, keys, r', rid);
    assert rid in r.holds ==> rid in r'.holds && r'.holds[rid] == r.holds[rid];
    forall user
      ensures r''.Counter(user, Zero()) == r.Counter(user, Zero()).Minus(Owed(r, user, keys + {rid}))
    {
      OwedOneMore(r, user, keys, rid);
    }
  }

  // ---------- The store ----------

  class QuotaStore {
    var usage: map<UserId, Amount>
    var holds: map<ReservationId, Hold>
    var index: map<ReservationId, int>

    function State(): Redis
      reads this
    {
      Redis(usage, holds, index)
    }

    constructor ()
      ensures State() == Redis(map[], map[], map[])
    {
      usage, holds, index := map[], map[], map[];
    }

    method RunReserve(user: UserId, rid: ReservationId, delta: Amount, limit: Amount, expiresAt: int, initial: Amount)
      returns (reply: Reply)
      modifies this
      ensures (State(), reply) == Reserve(old(State()), user, rid, delta, limit, expiresAt, initial)
    {
      if user !in usage {
        usage := usage[user := initial];
      }
      var current := usage[user];
      assert usage == old(usage)[user := current];
      if current.secrets + delta.secrets > limit.secrets {
        return Denied(1, current);
      }
      if current.bytes + delta.bytes > limit.bytes {
        return Denied(2, current);
      }
      usage := usage[user := usage[user].Plus(delta)];
      holds := holds[rid := Hold(user, delta, false)];
      index := index[rid := expiresAt];
      assert usage == old(usage)[user := current.Plus(delta)];
      return Accepted(current.Plus(delta));
    }

    method RunRelease(user: UserId, rid: ReservationId)
      modifies this
      ensures State() == Release(old(State()), user, rid)
    {
      if rid !in holds {
        return;
      }
      if !holds[rid].committed {
        var current := if user in usage then usage[user] else Zero();
        usage := usage[user := current.Minus(holds[rid].delta)];
      }
      holds := holds - {rid};
      index := index - {rid};
    }

    method RunCommit(rid: ReservationId)
      modifies this
      ensures State() == Commit(old(State()), rid)
    {
      if rid !in holds {
        return;
      }
      holds := holds[rid := holds[rid].(committed := true)];
      index := index - {rid};
      holds := holds - {rid};
      assert holds == old(holds) - {rid};
    }

    /** The loop over the sorted set adds each live reservation of the user once. */
    method RunReconcile(user: UserId, durable: Amount)
      modifies this
      ensures State() == Reconcile(old(State()), user, durable)
    {
      var sum := durable;
      var todo := index.Keys;
      ghost var done: set<ReservationId> := {};
      hide Owed;
      NothingListed(State(), user);
      while todo != {}
        invariant unchanged(this)
        invariant todo + done == index.Keys && todo !! done
        invariant sum == durable.Plus(Owed(State(), user, done))
        decreases todo
      {
        var rid :| rid in todo;
        OwedOneMore(State(), user, done, rid);
        if rid in holds && holds[rid].user == user && !holds[rid].committed {
          sum := sum.Plus(holds[rid].delta);
        }
        todo, done := todo - {rid}, done + {rid};
      }
      assert done == index.Keys;
      usage := usage[user := sum];
    }

    /** The loop body of the reaper: release the hold behind a key, or drop a key that has none. */
    method ReapOne(rid: ReservationId)
      modifies this
      ensures State() == ReapKey(old(State()), rid)
    {
      if rid in holds {
        RunRelease(holds[rid].user, rid);
      } else {
        holds := holds - {rid};
        index := index - {rid};
        assert holds == old(holds);
      }
    }

    /** Reaps every indexed reservation whose expiry lies in [0, now], and nothing else: those are gone, with what they
        held taken from the counters, and all others are as before. */
    method ReapExpired(now: int)
      modifies this
      ensures ReapedTo(old(State()), Expired(old(State()), now), State())
      ensures forall rid :: rid in old(index) && 0 <= old(index)[rid] <= now ==> rid !in index && rid !in holds
      ensures forall rid :: rid in old(index) && !(0 <= old(index)[rid] <= now) ==>
                && rid in index && index[rid] == old(index)[rid]
                && (rid in holds <==> rid in old(holds)) && (rid in holds ==> holds[rid] == old(holds)[rid])
      ensures forall rid :: rid !in old(index) ==>
                && rid !in index
                && (rid in holds <==> rid in old(holds)) && (rid in holds ==> holds[rid] == old(holds)[rid])
      ensures
        var due := set rid | rid in old(index) && 0 <= old(index)[rid] <= now;
        forall user ::
          State().Counter(user, Zero()) == old(State()).Counter(user, Zero()).Minus(Owed(old(State()), user, due))
    {
      ghost var start := State();
      ghost var done: set<ReservationId> := {};
      var todo := Expired(State(), now);
      ReapNothing(start);
      while todo != {}
        invariant todo !! done && done + todo == Expired(start, now)
        invariant ReapedTo(start, done, State())
        decreases todo
      {
        var rid :| rid in todo;
        ReapOneMore(start, done, State(), rid);
        ReapOne(rid);
        todo := todo - {rid};
        done := done + {rid};
      }
      assert done == Expired(start, now);
    }
  }
}
