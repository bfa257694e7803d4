/**
  No starvation: only a bounded number of claims that could have taken a queued
  job return something else. The bound is what the jobs ahead of it have left of
  their dispatches; a requeue keeps `created_at`, so a requeued job is ahead
  again but has one dispatch less.
*/
module Fairness {
  import opened Options
  import opened Queue
  import opened Runs

  // ----- sums over rows -----

  /** How many more times a job may be handed out under the cap; a closed job never again. */
  function Left(t: Table, id: JobId, cap: int): nat {
    if id in t && !t[id].state.Terminal() && t[id].attempts <= Dispatches(cap)
    then Dispatches(cap) - t[id].attempts else 0
  }

  ghost function TotalLeft(ids: set<JobId>, t: Table, cap: int): nat {
    if ids == {} then 0
    else
      var id :| id in ids;
      Left(t, id, cap) + TotalLeft(ids - {id}, t, cap)
  }

  lemma {:induction false} TotalLeftSplit(ids: set<JobId>, x: JobId, t: Table, cap: int)
    requires x in ids
    ensures TotalLeft(ids, t, cap) == Left(t, x, cap) + TotalLeft(ids - {x}, t, cap)
  {
    hide Left;
    var id :| id in ids && TotalLeft(ids, t, cap) == Left(t, id, cap) + TotalLeft(ids - {id}, t, cap);
    if id != x {
      TotalLeftSplit(ids - {id}, x, t, cap);
      TotalLeftSplit(ids - {x}, id, t, cap);
      assert ids - {id} - {x} == ids - {x} - {id};
    }
  }

  lemma {:induction false} TotalLeftMonotone(ids: set<JobId>, t: Table, u: Table, cap: int)
    requires forall id | id in ids :: Left(u, id, cap) <= Left(t, id, cap)
    ensures TotalLeft(ids, u, cap) <= TotalLeft(ids, t, cap)
  {
    hide Left;
    if ids != {} {
      var id :| id in ids;
      TotalLeftSplit(ids, id, t, cap);
      TotalLeftSplit(ids, id, u, cap);
      TotalLeftMonotone(ids - {id}, t, u, cap);
    }
  }

  lemma TotalLeftDrops(ids: set<JobId>, x: JobId, t: Table, u: Table, cap: int)
    requires x in ids && Left(u, x, cap) + 1 <= Left(t, x, cap)
    requires forall id | id in ids :: Left(u, id, cap) <= Left(t, id, cap)
    ensures TotalLeft(ids, u, cap) + 1 <= TotalLeft(ids, t, cap)
  {
    hide Left;
    TotalLeftSplit(ids, x, t, cap);
    TotalLeftSplit(ids, x, u, cap);
    TotalLeftMonotone(ids - {x}, t, u, cap);
  }

  // ----- waiting -----

  /** The other jobs that ORDER BY created_at may put before `j`. */
  function JobsAhead(t: Table, j: JobId): set<JobId>
    requires j in t
  {
    set id | id in t && id != j && t[id].createdAt <= t[j].createdAt
  }

  /** The job is in the queue at every call from `i` to `k`. */
  ghost predicate Waits(ops: seq<Op>, i: nat, k: nat, j: JobId)
    requires i <= k <= |ops|
  {
    forall m | i <= m <= k :: IsQueued(ops, m, j)
  }

  predicate IsQueued(ops: seq<Op>, m: nat, j: JobId)
    requires m <= |ops|
  {
    j in At(ops, m) && At(ops, m)[j].state == Queued
  }

  /** A claim by a runner that may take jobs for this environment, whatever it answers. */
  predicate Chance(op: Op, server: string) {
    op.Claim? && (op.wanted == {} || server in op.wanted)
  }

  function Chances(ops: seq<Op>, i: nat, k: nat, server: string): nat
    requires i <= k <= |ops|
  {
    if k == i then 0
    else Chances(ops, i, k - 1, server) + if Chance(ops[k - 1], server) then 1 else 0
  }

  /** The call adds a job whose stamp puts it before or level with one created at `created`. */
  predicate Late(ops: seq<Op>, m: nat, created: Time)
    requires m < |ops|
  {
    ops[m].Enqueue? && Accepted(ops, m) && ops[m].now <= created
  }

  function LateArrivals(ops: seq<Op>, i: nat, k: nat, created: Time): nat
    requires i <= k <= |ops|
  {
    if k == i then 0
    else LateArrivals(ops, i, k - 1, created) + if Late(ops, k - 1, created) then 1 else 0
  }

  /** The jobs ahead change only by late arrivals. */
  lemma AheadStep(ops: seq<Op>, m: nat, j: JobId)
    requires m < |ops| && j in At(ops, m)
    ensures j in At(ops, m + 1)
    ensures At(ops, m + 1)[j].job == At(ops, m)[j].job && At(ops, m + 1)[j].createdAt == At(ops, m)[j].createdAt
    ensures JobsAhead(At(ops, m + 1), j) ==
      if Late(ops, m, At(ops, m)[j].createdAt) then JobsAhead(At(ops, m), j) + {ops[m].job.id}
      else JobsAhead(At(ops, m), j)
  {
    var t, u := At(ops, m), At(ops, m + 1);
    RowsStay(ops, m, m + 1, j);
    forall id | id != j
      ensures id in JobsAhead(u, j)
        <==> id in JobsAhead(t, j) || (Late(ops, m, t[j].createdAt) && id == ops[m].job.id)
    {
      hide Apply;
      StepAt(ops, m, id);
      if id in t {
        RowsStay(ops, m, m + 1, id);
      } else if id in u {
        FreshRow(ops, m, id);
      }
    }
  }

  lemma AttemptsBound(ops: seq<Op>, m: nat, id: JobId, cap: int)
    requires Legal(ops) && FixedCap(ops, cap) && m <= |ops| && id in At(ops, m)
    ensures At(ops, m)[id].attempts <= Dispatches(cap)
  {
    hide At, Legal, FixedCap, Dispatches;
    RankBound(ops, m, id, cap);
  }

  /** One call never gives a job back a dispatch, and a claim takes one from the row it picks. */
  lemma LeftStep(ops: seq<Op>, m: nat, id: JobId, cap: int)
    requires Legal(ops) && FixedCap(ops, cap) && m < |ops| && id in At(ops, m)
    ensures Left(At(ops, m + 1), id, cap) <= Left(At(ops, m), id, cap)
    ensures ops[m].Takes(id) ==> Left(At(ops, m + 1), id, cap) + 1 <= Left(At(ops, m), id, cap)
  {
    hide Apply, At, Legal, RowStep, FixedCap, Dispatches, ReapRow;
    StepAt(ops, m, id);
    AttemptsBound(ops, m, id, cap);
    AttemptsBound(ops, m + 1, id, cap);
    AttemptsStep(id, At(ops, m)[id], ops[m]);
    ClosedStep(id, At(ops, m)[id], ops[m]);
  }

  /** A closed row stays closed and is never what a claim takes. */
  lemma ClosedStep(id: JobId, r: Row, op: Op)
    requires op.Takes(id) ==> ReapRow(r, op.cap, op.now).state == Queued
    ensures r.state.Terminal() ==> RowStep(id, r, op).state.Terminal() && !op.Takes(id)
  {
  }

  lemma AttemptsStep(id: JobId, r: Row, op: Op)
    ensures RowStep(id, r, op).attempts == r.attempts + if op.Takes(id) then 1 else 0
  {
  }

  /** A chance that the waiting job misses returns a job ahead of it; it cannot come back empty. */
  lemma PickIsAhead(ops: seq<Op>, m: nat, j: JobId)
    requires Legal(ops) && m < |ops| && IsQueued(ops, m, j) && IsQueued(ops, m + 1, j)
    requires Chance(ops[m], At(ops, m)[j].job.server)
    ensures ops[m].pick.Some? && ops[m].pick.value in JobsAhead(At(ops, m), j)
  {
    assert LegalAt(ops, m);
    var swept := Reaped(At(ops, m), ops[m].cap, ops[m].now);
    assert swept[j] == At(ops, m)[j] && Eligible(swept[j], ops[m].wanted);
    assert ops[m].pick.Some?;
    assert OldestEligible(swept, ops[m].wanted, ops[m].pick.value);
    StepAt(ops, m, j);
  }

  /** What `n` new jobs may be handed out, all together. */
  function AllDispatches(n: nat, cap: int): nat { n * Dispatches(cap) }

  lemma OneMoreJob(n: nat, cap: int)
    ensures AllDispatches(0, cap) == 0
    ensures AllDispatches(n + 1, cap) == AllDispatches(n, cap) + Dispatches(cap)
  {
  }

  /** What the jobs ahead have left of their dispatches, all together. */
  ghost function LeftAhead(ops: seq<Op>, m: nat, j: JobId, cap: int): nat
    requires m <= |ops| && j in At(ops, m)
  {
    TotalLeft(JobsAhead(At(ops, m), j), At(ops, m), cap)
  }

  lemma LeftOverSet(ops: seq<Op>, m: nat, j: JobId, cap: int)
    requires Legal(ops) && FixedCap(ops, cap) && m < |ops| && j in At(ops, m)
    ensures forall id | id in JobsAhead(At(ops, m), j) ::
      Left(At(ops, m + 1), id, cap) <= Left(At(ops, m), id, cap)
  {
    hide Apply, Legal, FixedCap, Left;
    forall id | id in JobsAhead(At(ops, m), j)
      ensures Left(At(ops, m + 1), id, cap) <= Left(At(ops, m), id, cap)
    {
      LeftStep(ops, m, id, cap);
    }
  }

  /** A missed chance costs the jobs ahead a dispatch; only a late arrival adds any, a full set. */
  lemma LeftAheadStep(ops: seq<Op>, m: nat, j: JobId, cap: int)
    requires Legal(ops) && FixedCap(ops, cap) && m < |ops| && IsQueued(ops, m, j) && IsQueued(ops, m + 1, j)
    ensures LeftAhead(ops, m + 1, j, cap) + (if Chance(ops[m], At(ops, m)[j].job.server) then 1 else 0)
      <= LeftAhead(ops, m, j, cap) + (if Late(ops, m, At(ops, m)[j].createdAt) then Dispatches(cap) else 0)
  {
    hide Apply, Legal, FixedCap, Left, JobsAhead, TotalLeft;
    var t, u, ahead := At(ops, m), At(ops, m + 1), JobsAhead(At(ops, m), j);
    AheadStep(ops, m, j);
    LeftOverSet(ops, m, j, cap);
    TotalLeftMonotone(ahead, t, u, cap);
    if Late(ops, m, t[j].createdAt) {
      TotalLeftAdds(ahead, ops[m].job.id, u, cap);
    } else if Chance(ops[m], t[j].job.server) {
      PickIsAhead(ops, m, j);
      AheadIsThere(t, j);
      LeftStep(ops, m, ops[m].pick.value, cap);
      TotalLeftDrops(ahead, ops[m].pick.value, t, u, cap);
    }
  }

  lemma AheadIsThere(t: Table, j: JobId)
    requires j in t
    ensures forall id | id in JobsAhead(t, j) :: id in t
  {
  }

  lemma TotalLeftAdds(ids: set<JobId>, x: JobId, t: Table, cap: int)
    ensures TotalLeft(ids + {x}, t, cap) <= TotalLeft(ids, t, cap) + Dispatches(cap)
  {
    if x in ids {
      assert ids + {x} == ids;
    } else {
      TotalLeftSplit(ids + {x}, x, t, cap);
      assert ids + {x} - {x} == ids;
    }
  }

  lemma {:induction false} ChancesBounded(ops: seq<Op>, i: nat, k: nat, j: JobId, cap: int)
    requires Legal(ops) && FixedCap(ops, cap) && i <= k <= |ops| && Waits(ops, i, k, j)
    ensures IsQueued(ops, i, j) && IsQueued(ops, k, j)
    ensures At(ops, k)[j].job == At(ops, i)[j].job && At(ops, k)[j].createdAt == At(ops, i)[j].createdAt
    ensures Chances(ops, i, k, At(ops, i)[j].job.server) + LeftAhead(ops, k, j, cap)
      <= LeftAhead(ops, i, j, cap) + AllDispatches(LateArrivals(ops, i, k, At(ops, i)[j].createdAt), cap)
  {
    hide Apply, At, Legal, FixedCap, LeftAhead, Chance, Late, AllDispatches;
    assert IsQueued(ops, i, j) && IsQueued(ops, k, j);
    OneMoreJob(0, cap);
    if i < k {
      OneMoreJob(LateArrivals(ops, i, k - 1, At(ops, i)[j].createdAt), cap);
      ChancesBounded(ops, i, k - 1, j, cap);
      AheadStep(ops, k - 1, j);
      LeftAheadStep(ops, k - 1, j, cap);
    }
  }

  /** A queued job leaves the queue only by a claim that takes it. */
  lemma {:induction false} QueuedUntilTaken(ops: seq<Op>, i: nat, k: nat, j: JobId)
    requires i <= k <= |ops| && IsQueued(ops, i, j)
    requires forall m | i <= m < k :: !ops[m].Takes(j)
    ensures IsQueued(ops, k, j)
  {
    hide Apply;
    if i < k {
      QueuedUntilTaken(ops, i, k - 1, j);
      StepAt(ops, k - 1, j);
    }
  }

  /**
    A queued job is handed out after a bounded number of chances, whatever the
    clocks do: once more claims have been made by runners that could take it than
    the jobs ahead of it have dispatches left, plus N for each job that arrived
    since with a stamp no later than its own, one of those claims has returned it.
  */
  lemma NoStarvation(ops: seq<Op>, i: nat, k: nat, j: JobId, cap: int)
    requires Legal(ops) && FixedCap(ops, cap) && i <= k <= |ops| && IsQueued(ops, i, j)
    requires Chances(ops, i, k, At(ops, i)[j].job.server)
      > LeftAhead(ops, i, j, cap) + AllDispatches(LateArrivals(ops, i, k, At(ops, i)[j].createdAt), cap)
    ensures exists m | i <= m < k :: ops[m].Takes(j)
  {
    hide Legal, FixedCap, Chances, LateArrivals, LeftAhead, At, AllDispatches;
    if forall m | i <= m < k :: !ops[m].Takes(j) {
      forall m | i <= m <= k ensures IsQueued(ops, m, j) {
        QueuedUntilTaken(ops, i, m, j);
      }
      ChancesBounded(ops, i, k, j, cap);
    }
  }

  // ----- the bound is exact -----

  /** The waiting job, stamped 1, and the first of the jobs stamped 0. */
  function Opening(job: Job, first: Job): seq<Op> { [Enqueue(job, 1.0), Enqueue(first, 0.0)] }

  /** A run since its opening, in which the job missed that many chances and that many others arrived late. */
  ghost predicate Missed(ops: seq<Op>, job: Job, first: Job, cap: int, chances: nat, late: nat) {
    && Opening(job, first) <= ops && Legal(ops) && FixedCap(ops, cap)
    && (forall m | 2 <= m < |ops| :: !ops[m].Takes(job.id))
    && Chances(ops, 2, |ops|, job.server) == chances && LateArrivals(ops, 2, |ops|, 1.0) == late
  }

  lemma {:induction false} CountsPrefix(ops: seq<Op>, op: Op, i: nat, k: nat, server: string, created: Time)
    requires i <= k <= |ops|
    ensures Chances(ops + [op], i, k, server) == Chances(ops, i, k, server)
    ensures LateArrivals(ops + [op], i, k, created) == LateArrivals(ops, i, k, created)
  {
    hide At;
    if i < k {
      CountsPrefix(ops, op, i, k - 1, server, created);
      AtPrefix(ops, [op], k - 1);
    }
  }

  lemma MissedOn(ops: seq<Op>, job: Job, first: Job, cap: int, chances: nat, late: nat, op: Op)
    requires Missed(ops, job, first, cap, chances, late) && Enabled(At(ops, |ops|), op)
    requires !op.Takes(job.id) && (op.Reaps() ==> op.cap == cap)
    ensures At(ops + [op], |ops| + 1) == Apply(At(ops, |ops|), op)
    ensures Missed(ops + [op], job, first, cap,
      if Chance(op, job.server) then chances + 1 else chances,
      if op.Enqueue? && op.job.id !in At(ops, |ops|) && op.now <= 1.0 then late + 1 else late)
  {
    hide Apply, Legal, Enabled, At;
    LegalExtends(ops, op);
    CountsPrefix(ops, op, 2, |ops|, job.server, 1.0);
    AtPrefix(ops, [op], |ops|);
  }

  /** Only the job waits; everything else is closed. */
  ghost predicate Alone(t: Table, job: Job) {
    && job.id in t && t[job.id] == NewRow(job, 1.0)
    && forall id | id in t && id != job.id :: t[id].state.Terminal()
  }

  /** The job waits behind one other, which was handed out `attempts` times so far. */
  ghost predicate Behind(t: Table, job: Job, x: JobId, attempts: nat) {
    && job.id in t && t[job.id] == NewRow(job, 1.0)
    && x in t && x != job.id && t[x].state == Queued && t[x].createdAt == 0.0 && t[x].attempts == attempts
    && forall id | id in t && id != job.id && id != x :: t[id].state.Terminal()
  }

  /** What one such turn does to a row: nothing, unless it is the one handed out. */
  lemma TurnRow(id: JobId, r: Row, x: JobId, cap: int)
    requires r.state == Queued || r.state.Terminal()
    requires id == x ==> r.state == Queued
    ensures var u := ReapRow(RowStep(id, r, Claim("r", {}, 1.0, cap, 0.0, Some(x))), cap, 2.0);
      if id != x then u == r
      else if r.attempts + 1 < cap then u.state == Queued && u.attempts == r.attempts + 1 && u.createdAt == r.createdAt
      else u.state.Terminal()
  {
  }

  lemma TurnTable(t: Table, x: JobId, cap: int)
    ensures var claim := Claim("r", {}, 1.0, cap, 0.0, Some(x));
      var u := Apply(Apply(t, claim), Reap(cap, 2.0));
      u.Keys == t.Keys && forall id | id in t :: u[id] == ReapRow(RowStep(id, t[id], claim), cap, 2.0)
  {
    var claim := Claim("r", {}, 1.0, cap, 0.0, Some(x));
    var u := Apply(Apply(t, claim), Reap(cap, 2.0));
    hide ReapRow;
    forall id | id in t ensures id in u && u[id] == ReapRow(RowStep(id, t[id], claim), cap, 2.0) {
    }
    assert u.Keys == t.Keys;
  }

  lemma BehindMayTake(t: Table, job: Job, x: JobId, attempts: nat, cap: int)
    requires Behind(t, job, x, attempts)
    ensures Enabled(t, Claim("r", {}, 1.0, cap, 0.0, Some(x)))
  {
    assert Reaped(t, cap, 0.0) == t;
  }

  lemma BehindTakes(t: Table, job: Job, x: JobId, attempts: nat, cap: int)
    requires Behind(t, job, x, attempts) && attempts < Dispatches(cap)
    ensures var claim := Claim("r", {}, 1.0, cap, 0.0, Some(x));
      Enabled(t, claim) && var u := Apply(Apply(t, claim), Reap(cap, 2.0));
      u.Keys == t.Keys && if attempts + 1 < Dispatches(cap) then Behind(u, job, x, attempts + 1) else Alone(u, job)
  {
    BehindMayTake(t, job, x, attempts, cap);
    TurnTable(t, x, cap);
    hide Enabled, Apply, RowStep, ReapRow;
    var claim := Claim("r", {}, 1.0, cap, 0.0, Some(x));
    var u := Apply(Apply(t, claim), Reap(cap, 2.0));
    forall id | id in t
      ensures id != x ==> u[id] == t[id]
      ensures id == x && t[id].attempts + 1 < cap ==>
        u[id].state == Queued && u[id].attempts == t[id].attempts + 1 && u[id].createdAt == t[id].createdAt
      ensures id == x && t[id].attempts + 1 >= cap ==> u[id].state.Terminal()
    {
      TurnRow(id, t[id], x, cap);
    }
  }

  lemma OtherJob(t: Table, job: Job, x: JobId, attempts: nat)
    requires Behind(t, job, x, attempts)
    ensures x != job.id
  {
  }

  lemma MissedClaim(ops: seq<Op>, job: Job, first: Job, cap: int, chances: nat, late: nat, x: JobId)
    returns (more: seq<Op>)
    requires Missed(ops, job, first, cap, chances, late) && x != job.id
    requires Enabled(At(ops, |ops|), Claim("r", {}, 1.0, cap, 0.0, Some(x)))
    ensures Missed(more, job, first, cap, chances + 1, late)
    ensures At(more, |more|) == Apply(At(ops, |ops|), Claim("r", {}, 1.0, cap, 0.0, Some(x)))
  {
    hide Apply, Missed, At, Enabled;
    var claim := Claim("r", {}, 1.0, cap, 0.0, Some(x));
    MissedOn(ops, job, first, cap, chances, late, claim);
    more := ops + [claim];
  }

  lemma MissedReap(ops: seq<Op>, job: Job, first: Job, cap: int, chances: nat, late: nat)
    returns (more: seq<Op>)
    requires Missed(ops, job, first, cap, chances, late)
    ensures Missed(more, job, first, cap, chances, late)
    ensures At(more, |more|) == Apply(At(ops, |ops|), Reap(cap, 2.0))
  {
    hide Apply, Missed, At;
    MissedOn(ops, job, first, cap, chances, late, Reap(cap, 2.0));
    more := ops + [Reap(cap, 2.0)];
  }

  /** The other job is handed out once and reaped. */
  lemma MissedTurn(ops: seq<Op>, job: Job, first: Job, cap: int, chances: nat, late: nat, x: JobId, attempts: nat)
    returns (more: seq<Op>)
    requires Missed(ops, job, first, cap, chances, late)
    requires Behind(At(ops, |ops|), job, x, attempts) && attempts < Dispatches(cap)
    ensures Missed(more, job, first, cap, chances + 1, late) && At(more, |more|).Keys == At(ops, |ops|).Keys
    ensures if attempts + 1 < Dispatches(cap) then Behind(At(more, |more|), job, x, attempts + 1)
      else Alone(At(more, |more|), job)
  {
    BehindTakes(At(ops, |ops|), job, x, attempts, cap);
    OtherJob(At(ops, |ops|), job, x, attempts);
    hide Apply, Missed, Behind, Alone, Enabled, At, Dispatches;
    var once := MissedClaim(ops, job, first, cap, chances, late, x);
    more := MissedReap(once, job, first, cap, chances + 1, late);
  }

  /** And again, until it has no dispatch left. */
  lemma {:induction false} MissedRound(ops: seq<Op>, job: Job, first: Job, cap: int, chances: nat, late: nat,
                                       x: JobId, attempts: nat) returns (more: seq<Op>)
    requires Missed(ops, job, first, cap, chances, late)
    requires Behind(At(ops, |ops|), job, x, attempts) && attempts < Dispatches(cap)
    ensures Missed(more, job, first, cap, chances + Dispatches(cap) - attempts, late)
    ensures Alone(At(more, |more|), job) && At(more, |more|).Keys == At(ops, |ops|).Keys
    decreases Dispatches(cap) - attempts
  {
    hide Apply, Missed, Behind, Alone, At;
    more := MissedTurn(ops, job, first, cap, chances, late, x, attempts);
    if attempts + 1 < Dispatches(cap) {
      more := MissedRound(more, job, first, cap, chances + 1, late, x, attempts + 1);
    }
  }

  lemma ReapIsEnabled(t: Table, op: Op)
    requires !op.Claim?
    ensures Enabled(t, op)
  {
  }

  /** Ids that are all different and all new to the table. */
  ghost predicate AllNew(t: Table, jobs: seq<Job>) {
    && (forall n | 0 <= n < |jobs| :: jobs[n].id !in t)
    && forall n, m | 0 <= n < m < |jobs| :: jobs[n].id != jobs[m].id
  }

  lemma NewArrives(t: Table, job: Job, jobs: seq<Job>)
    requires Alone(t, job) && |jobs| > 0 && AllNew(t, jobs)
    ensures var u := Apply(t, Enqueue(jobs[0], 0.0));
      Behind(u, job, jobs[0].id, 0) && u.Keys == t.Keys + {jobs[0].id} && jobs[0].id !in t
  {
  }

  /** One after another the others arrive late and use up their dispatches. */
  lemma {:induction false} MissedRounds(ops: seq<Op>, job: Job, first: Job, cap: int, chances: nat, late: nat,
                                        jobs: seq<Job>) returns (more: seq<Op>)
    requires Missed(ops, job, first, cap, chances, late)
    requires Alone(At(ops, |ops|), job) && AllNew(At(ops, |ops|), jobs)
    ensures Missed(more, job, first, cap, chances + AllDispatches(|jobs|, cap), late + |jobs|)
    ensures Alone(At(more, |more|), job)
    decreases |jobs|
  {
    hide Apply, Missed, Behind, Alone, Enabled, At, AllDispatches;
    more := ops;
    OneMoreJob(0, cap);
    if |jobs| > 0 {
      var enqueue := Enqueue(jobs[0], 0.0);
      NewArrives(At(ops, |ops|), job, jobs);
      ReapIsEnabled(At(ops, |ops|), enqueue);
      MissedOn(ops, job, first, cap, chances, late, enqueue);
      assert 0 < Dispatches(cap) by { SomeDispatch(cap); }
      more := MissedRound(ops + [enqueue], job, first, cap, chances, late + 1, jobs[0].id, 0);
      assert AllNew(At(more, |more|), jobs[1..]);
      more := MissedRounds(more, job, first, cap, chances + Dispatches(cap), late + 1, jobs[1..]);
      OneMoreJob(|jobs| - 1, cap);
    }
  }

  lemma SomeDispatch(cap: int)
    ensures 0 < Dispatches(cap)
  {
  }

  lemma OpeningTable(ops: seq<Op>, job: Job, first: Job, cap: int)
    requires Opening(job, first) <= ops && job.id != first.id
    ensures At(ops, 2) == map[job.id := NewRow(job, 1.0), first.id := NewRow(first, 0.0)]
    ensures IsQueued(ops, 2, job.id) && LeftAhead(ops, 2, job.id, cap) == Dispatches(cap)
  {
    assert At(ops, 0) == map[];
    assert At(ops, 1) == map[job.id := NewRow(job, 1.0)];
    var t := At(ops, 2);
    assert JobsAhead(t, job.id) == {first.id};
    TotalLeftSplit({first.id}, first.id, t, cap);
    assert {first.id} - {first.id} == {};
  }

  lemma OpeningIsMissed(job: Job, first: Job, cap: int)
    ensures Missed(Opening(job, first), job, first, cap, 0, 0)
  {
    assert Opening(job, first)[0].Enqueue? && Opening(job, first)[1].Enqueue?;
  }

  /**
    The bound of `NoStarvation` is attained under every cap, with a job ahead and
    any number of late arrivals: the job misses exactly that many chances, and
    still waits.
  */
  lemma NoStarvationIsExact(job: Job, first: Job, others: seq<Job>, cap: int) returns (ops: seq<Op>)
    requires AllNew(map[], [job, first] + others)
    ensures Legal(ops) && FixedCap(ops, cap) && 2 <= |ops|
    ensures IsQueued(ops, 2, job.id) && IsQueued(ops, |ops|, job.id)
    ensures forall m | 2 <= m < |ops| :: !ops[m].Takes(job.id)
    ensures LeftAhead(ops, 2, job.id, cap) == Dispatches(cap)
    ensures LateArrivals(ops, 2, |ops|, At(ops, 2)[job.id].createdAt) == |others|
    ensures Chances(ops, 2, |ops|, At(ops, 2)[job.id].job.server)
      == LeftAhead(ops, 2, job.id, cap)
        + AllDispatches(LateArrivals(ops, 2, |ops|, At(ops, 2)[job.id].createdAt), cap)
  {
    var all := [job, first] + others;
    assert all[0] == job && all[1] == first && forall n | 0 <= n < |others| :: others[n] == all[n + 2];
    ops := Opening(job, first);
    OpeningIsMissed(job, first, cap);
    OpeningTable(ops, job, first, cap);
    assert Behind(At(ops, 2), job, first.id, 0);
    hide At, Apply, Legal, LeftAhead, Chances, LateArrivals, AllDispatches;
    SomeDispatch(cap);
    ops := MissedRound(ops, job, first, cap, 0, 0, first.id, 0);
    ops := MissedRounds(ops, job, first, cap, Dispatches(cap), 0, others);
    OpeningTable(ops, job, first, cap);
  }
}
