/** The storage clean-up, row by row, while everything else goes on: each of its passes is part of a run of the
    backend, what it has deleted stays recorded, and what it has dropped or released does not come back. */
module StorageCleanup {
  import opened Amounts
  import opened QuotaScripts
  import opened Backend
  import opened UsageSums
  import opened Shapes
  import opened QuotaSafety
  import opened QuotaRuns

  /** How far a pass gets with one row: its object is deleted, the row is marked or dropped, and the release of a
      pending upload's reservation works too. */
  datatype Reach = Stuck | Erased | Recorded | Done {
    predicate Erases() { !Stuck? }
    predicate Records() { Recorded? || Done? }
  }

  /** A request past its reservations never asks for another one and never inserts a second pending row. */
  ghost predicate Past(s: State, s': State, k: nat) {
    && k in s'.jobs && !s'.jobs[k].Early()
    && (k in s'.pending ==> k in s.pending)
    && (ReservationId(k, Bytes) in s'.redis.holds ==> ReservationId(k, Bytes) in s.redis.holds)
  }

  /** What a pass relies on: erased objects stay recorded as erased, in the outbox and among the fetched rows, and
      dropped rows and released reservations stay away. */
  ghost predicate Remembers(s: State, s': State) {
    && (forall k :: k in s.outbox ==> k in s'.outbox)
    && (forall k :: k in s.outbox && !s.outbox[k].stage.Queued? ==> !s'.outbox[k].stage.Queued?)
    && (forall k :: k in s.outbox && s.outbox[k].stage.Processed? ==> s'.outbox[k].stage.Processed?)
    && (forall k :: k in s.sweeping ==> k in s'.sweeping && (s.sweeping[k] ==> s'.sweeping[k]))
    && (forall k :: k in s.jobs && !s.jobs[k].Early() ==> Past(s, s', k))
  }

  lemma OutboxRemembered(s: State, step: Step, k: nat)
    requires Enabled(s, step) && k in s.outbox
    ensures
      var s' := Apply(s, step);
      && k in s'.outbox
      && (!s.outbox[k].stage.Queued? ==> !s'.outbox[k].stage.Queued?)
      && (s.outbox[k].stage.Processed? ==> s'.outbox[k].stage.Processed?)
  {
    hide WithoutOwner, Enqueued, Remaining, Total, Ask, ReadOn, Stray, StrayAll, SettleAllReaders, Release, Commit;
    hide Owed, Recounted;
  }

  lemma SweepingRemembered(s: State, step: Step, k: nat)
    requires Enabled(s, step) && k in s.sweeping
    ensures k in Apply(s, step).sweeping && (s.sweeping[k] ==> Apply(s, step).sweeping[k])
  {
    hide WithoutOwner, Enqueued, Remaining, Total, Ask, ReadOn, Stray, StrayAll, SettleAllReaders, Release, Commit;
    hide Owed, Recounted;
  }

  lemma PastJobStays(s: State, step: Step, k: nat)
    requires Enabled(s, step) && k in s.jobs && !s.jobs[k].Early()
    ensures k in Apply(s, step).jobs && !Apply(s, step).jobs[k].Early()
    ensures k in Apply(s, step).pending ==> k in s.pending
  {
    hide WithoutOwner, Enqueued, Remaining, Total, Ask, ReadOn, Stray, StrayAll, SettleAllReaders, Release, Commit;
    hide Owed, Recounted;
  }

  lemma PastHoldsStay(s: State, step: Step, rid: ReservationId)
    requires Enabled(s, step) && rid.request in s.jobs && !s.jobs[rid.request].Early()
    ensures rid in Apply(s, step).redis.holds ==> rid in s.redis.holds
  {
    hide Total, SettleAllReaders, StrayAll, Ask, Owed, Recounted;
    if step.TryReserve? {
      AskEffect(s, step.r, step.j, step.expiresAt);
    }
  }

  lemma StepRemembers(s: State, step: Step)
    requires Enabled(s, step)
    ensures Remembers(s, Apply(s, step))
  {
    hide Enabled, Apply, Job.Early;
    forall k | k in s.outbox
      ensures
        var s' := Apply(s, step);
        && k in s'.outbox
        && (!s.outbox[k].stage.Queued? ==> !s'.outbox[k].stage.Queued?)
        && (s.outbox[k].stage.Processed? ==> s'.outbox[k].stage.Processed?)
    {
      OutboxRemembered(s, step, k);
    }
    forall k | k in s.sweeping ensures k in Apply(s, step).sweeping && (s.sweeping[k] ==> Apply(s, step).sweeping[k]) {
      SweepingRemembered(s, step, k);
    }
    forall k | k in s.jobs && !s.jobs[k].Early() ensures Past(s, Apply(s, step), k) {
      PastJobStays(s, step, k);
      PastHoldsStay(s, step, ReservationId(k, Bytes));
    }
  }

  lemma RemembersOn(s: State, s': State, s'': State)
    requires Remembers(s, s') && Remembers(s', s'')
    ensures Remembers(s, s'')
  {
  }

  lemma {:induction false} RunRemembers(s: State, steps: seq<Step>)
    requires Legal(s, steps)
    ensures Remembers(s, Run(s, steps))
    decreases |steps|
  {
    hide Enabled, Apply;
    if steps != [] {
      hide Remembers;
      StepRemembers(s, steps[0]);
      RunRemembers(Apply(s, steps[0]), steps[1..]);
      RemembersOn(s, Apply(s, steps[0]), Run(s, steps));
    }
  }

  /** The steps of the clean-up. */
  predicate CleansUp(step: Step) {
    || step.EraseQueued? || step.MarkProcessed?
    || step.Fetch? || step.EraseFetched? || step.DropPending? || step.DoRelease?
  }

  /** One clean-up pass, and the run it is part of. */
  class Sweeper {
    ghost const start: State
    ghost var state: State
    ghost var trace: seq<Step>

    ghost predicate Valid()
      reads this
    {
      Legal(start, trace) && state == Run(start, trace)
    }

    ghost constructor (s: State)
      ensures Valid() && state == s == start && trace == []
    {
      start, state, trace := s, s, [];
    }

    ghost method Do(step: Step)
      requires Valid() && Enabled(state, step) && CleansUp(step)
      modifies this
      ensures Valid() && state == Apply(old(state), step) && Remembers(old(state), state)
    {
      hide Apply, Enabled, Remembers;
      RunThenStep(start, trace, step);
      StepRemembers(state, step);
      state, trace := Apply(state, step), trace + [step];
    }

    /** Any number of steps of anybody. */
    ghost method Wait()
      requires Valid()
      modifies this
      ensures Valid() && Remembers(old(state), state)
    {
      hide Remembers;
      assert Legal(state, []);
      var steps :| Legal(state, steps);
      RunRemembers(state, steps);
      RunJoin(start, trace, steps);
      state, trace := Run(state, steps), trace + steps;
    }

    ghost method EraseThenWait(k: nat)
      requires Valid() && k in state.outbox && !state.outbox[k].stage.Processed?
      modifies this
      ensures Valid() && Remembers(old(state), state) && k in state.outbox && !state.outbox[k].stage.Queued?
    {
      hide Legal, Run, Total;
      ghost var before := state;
      Do(EraseQueued(k));
      ghost var erased := state;
      Wait();
      RemembersOn(before, erased, state);
    }

    /** Deletes a queued object and marks its row processed; after a failure the row is left for a later pass. */
    ghost method ProcessRow(k: nat, reach: Reach)
      requires Valid() && k in state.outbox
      modifies this
      ensures Valid() && Remembers(old(state), state) && k in state.outbox
      ensures reach.Erases() ==> !state.outbox[k].stage.Queued?
      ensures reach.Records() ==> state.outbox[k].stage.Processed?
    {
      hide Legal, Run, Remembers;
      ghost var before := state;
      KeepsItself(before);
      if reach.Erases() && !state.outbox[k].stage.Processed? {
        EraseThenWait(k);
        ghost var erased := state;
        KeepsItself(erased);
        if reach.Records() && !state.outbox[k].stage.Processed? {
          Do(MarkProcessed(k));
        }
        RemembersOn(before, erased, state);
      }
    }

    ghost method EraseFetchedThenWait(k: nat)
      requires Valid() && k in state.sweeping
      modifies this
      ensures Valid() && Remembers(old(state), state) && k in state.sweeping && state.sweeping[k]
    {
      hide Legal, Run;
      ghost var before := state;
      Do(EraseFetched(k));
      ghost var erased := state;
      Wait();
      RemembersOn(before, erased, state);
    }

    ghost method DropThenWait(k: nat)
      requires Valid() && k in state.sweeping && state.sweeping[k] && k in state.jobs && !state.jobs[k].Early()
      modifies this
      ensures Valid() && Remembers(old(state), state) && k !in state.pending
    {
      hide Legal, Run, Remembers, Apply, Job.Early;
      ghost var before := state;
      assert k !in Apply(before, DropPending(k)).pending by { DropsPending(before, k); }
      Do(DropPending(k));
      ghost var dropped := state;
      StaysPast(before, dropped, k);
      Wait();
      StaysPast(dropped, state, k);
      RemembersOn(before, dropped, state);
    }

    ghost method ReleaseBytes(k: nat)
      requires Valid()
      modifies this
      ensures Valid() && Remembers(old(state), state) && ReservationId(k, Bytes) !in state.redis.holds
    {
      hide Legal, Run, Remembers;
      KeepsItself(state);
      if ReservationId(k, Bytes) in state.redis.holds {
        Do(DoRelease(ReservationId(k, Bytes)));
      }
    }

    /** Deletes the object behind a fetched pending row, drops the row and releases its reservation; a failed release is
        not noticed. */
    ghost method ProcessPending(k: nat, reach: Reach)
      requires Valid() && k in state.sweeping && k in state.jobs && !state.jobs[k].Early()
      modifies this
      ensures Valid() && Remembers(old(state), state) && PendingDone(state, k, reach)
    {
      hide Legal, Run, Remembers, Job.Early, Apply, Enabled;
      ghost var before := state;
      KeepsItself(before);
      if reach.Erases() {
        EraseFetchedThenWait(k);
        StaysPast(before, state, k);
        if reach.Records() {
          ghost var erased := state;
          DropThenWait(k);
          RemembersOn(before, erased, state);
          StaysErased(erased, state, k);
          StaysPast(erased, state, k);
          if reach.Done? {
            ghost var dropped := state;
            ReleaseBytes(k);
            RemembersOn(before, dropped, state);
            StaysErased(dropped, state, k);
            StaysPast(dropped, state, k);
          }
        }
      }
    }

    /** process_storage_cleanup, up to the reaper: the rows are selected first, then handled one by one. */
    ghost method Pass(queued: seq<nat>, pending: seq<nat>, reach: nat -> Reach)
      requires Valid() && Shape(state)
      requires forall k :: k in queued ==> k in state.outbox
      requires forall k :: k in pending ==> k in state.pending
      modifies this
      ensures Valid()
      ensures forall k :: k in queued ==> RowDone(state, k, reach(k))
      ensures forall k :: k in pending ==> PendingDone(state, k, reach(k))
    {
      hide Legal, Run, Apply, Enabled, Remembers, Shape, RowDone, PendingDone, Job.Early;
      PendingArePast(state);
      FetchAll(pending);
      ghost var selected := state;
      KeepsItself(selected);
      for i := 0 to |queued|
        invariant Valid() && Remembers(selected, state)
        invariant forall k :: k in queued[..i] ==> RowDone(state, k, reach(k))
      {
        ghost var before := state;
        StillQueued(selected, before, queued[i]);
        ProcessRow(queued[i], reach(queued[i]));
        RemembersOn(selected, before, state);
        StillMarked(before, state, queued[..i], reach);
        RowIsDone(state, queued[i], reach(queued[i]));
        assert queued[..i + 1] == queued[..i] + [queued[i]];
      }
      ghost var halfway := state;
      KeepsItself(halfway);
      for i := 0 to |pending|
        invariant Valid() && Remembers(selected, state) && Remembers(halfway, state)
        invariant forall k :: k in pending[..i] ==> PendingDone(state, k, reach(k))
      {
        ghost var before := state;
        StillFetched(selected, before, pending[i]);
        ProcessPending(pending[i], reach(pending[i]));
        RemembersOn(selected, before, state);
        RemembersOn(halfway, before, state);
        StillDropped(before, state, pending[..i], reach);
        assert pending[..i + 1] == pending[..i] + [pending[i]];
      }
      assert queued[..|queued|] == queued && pending[..|pending|] == pending;
      StillMarked(halfway, state, queued, reach);
    }

    ghost method FetchAll(pending: seq<nat>)
      requires Valid() && forall k :: k in pending ==> k in state.pending && k in state.jobs
      modifies this
      ensures Valid() && state.outbox == old(state.outbox) && state.jobs == old(state.jobs)
      ensures forall k :: k in pending ==> k in state.sweeping
    {
      hide Legal, Run, Remembers;
      for i := 0 to |pending|
        invariant Valid() && state.outbox == old(state.outbox)
        invariant state.pending == old(state.pending) && state.jobs == old(state.jobs)
        invariant forall k :: k in pending[..i] ==> k in state.sweeping
      {
        Do(Fetch(pending[i]));
        assert pending[..i + 1] == pending[..i] + [pending[i]];
      }
      assert pending[..|pending|] == pending;
    }
  }

  /** What a pass has achieved for an outbox row. */
  ghost predicate RowDone(s: State, k: nat, reach: Reach) {
    && k in s.outbox
    && (reach.Erases() ==> !s.outbox[k].stage.Queued?)
    && (reach.Records() ==> s.outbox[k].stage.Processed?)
  }

  /** What a pass has achieved for a pending upload. */
  ghost predicate PendingDone(s: State, k: nat, reach: Reach) {
    && k in s.jobs && !s.jobs[k].Early()
    && (reach.Erases() ==> k in s.sweeping && s.sweeping[k])
    && (reach.Records() ==> k !in s.pending)
    && (reach.Done? ==> ReservationId(k, Bytes) !in s.redis.holds)
  }

  lemma KeepsItself(s: State)
    ensures Remembers(s, s)
  {
  }

  lemma DropsPending(s: State, k: nat)
    requires Enabled(s, DropPending(k))
    ensures k !in Apply(s, DropPending(k)).pending
  {
  }

  lemma PendingArePast(s: State)
    requires Shape(s)
    ensures forall k :: k in s.pending ==> k in s.jobs && !s.jobs[k].Early()
  {
    hide HoldsFit, PhasesFit, RowsFit, ReadersFit, DoublesFit;
  }

  lemma StaysPast(s: State, s': State, k: nat)
    requires Remembers(s, s') && k in s.jobs && !s.jobs[k].Early()
    ensures Past(s, s', k)
  {
  }

  lemma StaysErased(s: State, s': State, k: nat)
    requires Remembers(s, s') && k in s.sweeping && s.sweeping[k]
    ensures k in s'.sweeping && s'.sweeping[k]
  {
  }

  lemma StillQueued(s: State, s': State, k: nat)
    requires Remembers(s, s') && k in s.outbox
    ensures k in s'.outbox
  {
  }

  lemma StillFetched(s: State, s': State, k: nat)
    requires Remembers(s, s') && k in s.sweeping && k in s.jobs && !s.jobs[k].Early()
    ensures k in s'.sweeping && k in s'.jobs && !s'.jobs[k].Early()
  {
    StaysPast(s, s', k);
  }

  lemma RowIsDone(s: State, k: nat, reach: Reach)
    requires k in s.outbox
    requires reach.Erases() ==> !s.outbox[k].stage.Queued?
    requires reach.Records() ==> s.outbox[k].stage.Processed?
    ensures RowDone(s, k, reach)
  {
  }

  lemma StillMarked(s: State, s': State, ks: seq<nat>, reach: nat -> Reach)
    requires Remembers(s, s')
    requires forall k :: k in ks ==> RowDone(s, k, reach(k))
    ensures forall k :: k in ks ==> RowDone(s', k, reach(k))
  {
  }

  lemma StillDropped(s: State, s': State, ks: seq<nat>, reach: nat -> Reach)
    requires Remembers(s, s')
    requires forall k :: k in ks ==> PendingDone(s, k, reach(k))
    ensures forall k :: k in ks ==> PendingDone(s', k, reach(k))
  {
    hide Remembers, Job.Early;
    forall k | k in ks ensures PendingDone(s', k, reach(k)) {
      assert PendingDone(s, k, reach(k));
      StaysPast(s, s', k);
      if reach(k).Erases() {
        StaysErased(s, s', k);
      }
    }
  }
}
