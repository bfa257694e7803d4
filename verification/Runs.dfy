/**
  Runs of the queue: any sequence of calls, from any callers, with any stamps,
  starting from the empty table. Every theorem is about every position of every
  run, by induction over the run.
*/
module Runs {
  import opened Options
  import opened Queue

  /** The table after the first `k` calls. */
  function At(ops: seq<Op>, k: nat): Table
    requires k <= |ops|
  {
    if k == 0 then map[] else Apply(At(ops, k - 1), ops[k - 1])
  }

  /** Every claim of the run answered what the queue allowed at that moment. */
  ghost predicate Legal(ops: seq<Op>) {
    forall k | 0 <= k < |ops| :: LegalAt(ops, k)
  }

  ghost predicate LegalAt(ops: seq<Op>, k: nat)
    requires k < |ops|
  {
    Enabled(At(ops, k), ops[k])
  }

  /** The call at position `k` got the answer yes. */
  predicate Accepted(ops: seq<Op>, k: nat)
    requires k < |ops|
  {
    Accepts(At(ops, k), ops[k])
  }

  ghost predicate FixedCap(ops: seq<Op>, cap: int) {
    forall k | 0 <= k < |ops| && ops[k].Reaps() :: ops[k].cap == cap
  }

  lemma {:induction false} AtPrefix(ops: seq<Op>, more: seq<Op>, k: nat)
    requires k <= |ops|
    ensures At(ops + more, k) == At(ops, k)
  {
    if k > 0 {
      AtPrefix(ops, more, k - 1);
    }
  }

  lemma LegalExtends(ops: seq<Op>, op: Op)
    requires Legal(ops) && Enabled(At(ops, |ops|), op)
    ensures Legal(ops + [op]) && At(ops + [op], |ops| + 1) == Apply(At(ops, |ops|), op)
  {
    hide Apply, Enabled;
    AtPrefix(ops, [op], |ops|);
    forall k | 0 <= k < |ops + [op]| ensures LegalAt(ops + [op], k) {
      AtPrefix(ops, [op], k);
      assert k < |ops| ==> LegalAt(ops, k);
    }
  }

  /** One call, seen from one row. */
  lemma StepAt(ops: seq<Op>, k: nat, id: JobId)
    requires k < |ops|
    ensures id in At(ops, k + 1) <==> id in At(ops, k) || (ops[k].Enqueue? && ops[k].job.id == id)
    ensures id in At(ops, k) ==> At(ops, k + 1)[id] == RowStep(id, At(ops, k)[id], ops[k])
    ensures Legal(ops) && ops[k].Takes(id) ==>
      id in At(ops, k) && ReapRow(At(ops, k)[id], ops[k].cap, ops[k].now).state == Queued
  {
    ApplyRow(At(ops, k), ops[k], id);
    if Legal(ops) && ops[k].Takes(id) {
      assert LegalAt(ops, k);
      TakenWasQueued(At(ops, k), ops[k], id);
    }
  }

  // ----- invariants of every reachable table -----

  lemma {:induction false} ReachableOK(ops: seq<Op>, k: nat)
    requires Legal(ops) && k <= |ops|
    ensures TableOK(At(ops, k))
  {
    if k > 0 {
      ReachableOK(ops, k - 1);
      assert LegalAt(ops, k - 1);
      ApplyKeepsOK(At(ops, k - 1), ops[k - 1]);
    }
  }

  /** Once enqueued, a job keeps its row, its payload and its place in the queue. */
  lemma {:induction false} RowsStay(ops: seq<Op>, i: nat, k: nat, id: JobId)
    requires i <= k <= |ops| && id in At(ops, i)
    ensures id in At(ops, k)
    ensures At(ops, k)[id].job == At(ops, i)[id].job
    ensures At(ops, k)[id].createdAt == At(ops, i)[id].createdAt
  {
    hide Apply;
    if i < k {
      RowsStay(ops, i, k - 1, id);
      StepAt(ops, k - 1, id);
    }
  }

  /**
    An accepted enqueue stores what it was given, and the row keeps that payload
    and that place in the queue for good.
  */
  lemma EnqueueIsKept(ops: seq<Op>, i: nat, k: nat)
    requires i < k <= |ops| && ops[i].Enqueue? && Accepted(ops, i)
    ensures ops[i].job.id in At(ops, k)
    ensures At(ops, k)[ops[i].job.id].job == ops[i].job
    ensures At(ops, k)[ops[i].job.id].createdAt == ops[i].now
  {
    assert At(ops, i + 1) == Apply(At(ops, i), ops[i]);
    RowsStay(ops, i + 1, k, ops[i].job.id);
  }

  /** A new job waits: nobody holds it, and it was never handed out, started or closed. */
  lemma NewJobWaits(ops: seq<Op>, i: nat)
    requires i < |ops| && ops[i].Enqueue? && Accepted(ops, i)
    ensures var r := At(ops, i + 1)[ops[i].job.id];
      && r.state == Queued && r.attempts == 0 && r.holder == None && r.lease == None && r.startedAt == None
      && r.finishedAt == None && r.outcome == None && r.summary == None
  {
  }

  /** And there are no other rows: each came from an accepted enqueue of that very payload. */
  lemma {:induction false} RowWasEnqueued(ops: seq<Op>, k: nat, id: JobId) returns (i: nat)
    requires k <= |ops| && id in At(ops, k)
    ensures i < k && ops[i].Enqueue? && Accepted(ops, i) && ops[i].job.id == id
    ensures At(ops, k)[id].job == ops[i].job && At(ops, k)[id].createdAt == ops[i].now
  {
    hide Apply;
    if id in At(ops, k - 1) {
      i := RowWasEnqueued(ops, k - 1, id);
      RowsStay(ops, k - 1, k, id);
    } else {
      StepAt(ops, k - 1, id);
      i := k - 1;
      EnqueueIsKept(ops, i, k);
    }
  }

  /** What a claim hands out is the payload that was enqueued, column by column. */
  lemma ClaimReturnsPayload(ops: seq<Op>, i: nat, n: nat)
    requires Legal(ops) && i < n < |ops| && ops[i].Enqueue? && Accepted(ops, i) && ops[n].Takes(ops[i].job.id)
    ensures var swept := Reaped(At(ops, n), ops[n].cap, ops[n].now);
      ops[i].job.id in swept && swept[ops[i].job.id].job == ops[i].job
  {
    EnqueueIsKept(ops, i, n);
  }

  /** The primary key: of all the enqueues of one id, exactly the first is accepted. */
  lemma EnqueuedOnce(ops: seq<Op>, i: nat, j: nat)
    requires i < j < |ops| && ops[i].Enqueue? && ops[j].Enqueue?
    requires ops[i].job.id == ops[j].job.id
    ensures !Accepted(ops, j)
    ensures At(ops, j + 1) == At(ops, j)
  {
    assert ops[i].job.id in At(ops, i + 1);
    RowsStay(ops, i + 1, j, ops[i].job.id);
  }

  /** A finished or abandoned row never changes again, in any column. */
  lemma {:induction false} TerminalForever(ops: seq<Op>, i: nat, k: nat, id: JobId)
    requires Legal(ops) && i <= k <= |ops|
    requires id in At(ops, i) && At(ops, i)[id].state.Terminal()
    ensures id in At(ops, k) && At(ops, k)[id] == At(ops, i)[id]
  {
    hide Apply, Enabled;
    if i < k {
      TerminalForever(ops, i, k - 1, id);
      StepAt(ops, k - 1, id);
    }
  }

  /** However often a result is posted, at most one post is recorded for a job. */
  lemma AtMostOneFinish(ops: seq<Op>, i: nat, j: nat)
    requires Legal(ops) && i < |ops| && j < |ops|
    requires ops[i].Finish? && ops[j].Finish? && ops[i].id == ops[j].id
    requires Accepted(ops, i) && Accepted(ops, j)
    ensures i == j
  {
    hide Apply, Enabled, Legal;
    StepAt(ops, i, ops[i].id);
    StepAt(ops, j, ops[i].id);
    if i < j {
      TerminalForever(ops, i + 1, j, ops[i].id);
    } else if j < i {
      TerminalForever(ops, j + 1, i, ops[i].id);
    }
  }

  /**
    What a row reports at the end is exactly the one accepted post: the first
    post of that result that was accepted decides all the result columns, for good.
  */
  lemma RecordedResult(ops: seq<Op>, i: nat, k: nat)
    requires Legal(ops) && i < k <= |ops| && ops[i].Finish? && Accepted(ops, i)
    ensures ops[i].id in At(ops, k)
    ensures var r := At(ops, k)[ops[i].id];
      && r.state == (if ops[i].outcome.exitCode == 0 then Done else Failed)
      && r.outcome == Some(ops[i].outcome) && r.summary == Some(ops[i].note)
      && r.finishedAt == Some(ops[i].now) && r.holder == Some(ops[i].runner)
  {
    hide Apply, Enabled, Legal;
    StepAt(ops, i, ops[i].id);
    TerminalForever(ops, i + 1, k, ops[i].id);
  }

  // ----- conservation -----

  /** How often each transition of one row happened. */
  datatype Tally = Tally(claims: nat, starts: nat, requeues: nat, finishes: nat, abandons: nat) {
    function Plus(other: Tally): Tally {
      Tally(claims + other.claims, starts + other.starts, requeues + other.requeues,
            finishes + other.finishes, abandons + other.abandons)
    }
    function Total(): nat { claims + starts + requeues + finishes + abandons }
  }

  const NOTHING := Tally(0, 0, 0, 0, 0)

  /** The transitions one call makes on one row; a claim may requeue and take it at once. */
  function Transitions(id: JobId, r: Row, op: Op): Tally {
    var lapses := op.Reaps() && Lapsed(r, op.now);
    Tally(if op.Takes(id) then 1 else 0,
          if op.MarkRunning? && op.id == id && Startable(r, op.runner) then 1 else 0,
          if lapses && r.attempts < op.cap then 1 else 0,
          if op.Finish? && op.id == id && HeldBy(r, op.runner) then 1 else 0,
          if lapses && r.attempts >= op.cap then 1 else 0)
  }

  function TallyAt(ops: seq<Op>, k: nat, id: JobId): Tally
    requires k <= |ops|
  {
    if k == 0 || id !in At(ops, k - 1) then NOTHING
    else TallyAt(ops, k - 1, id).Plus(Transitions(id, At(ops, k - 1)[id], ops[k - 1]))
  }

  /** A row's column and its history agree, so nothing is claimed, lost or ended twice. */
  ghost predicate Balanced(r: Row, tally: Tally) {
    && r.attempts == tally.claims
    && tally.claims == tally.requeues + (if r.state == Queued then 0 else 1)
    && tally.finishes == (if r.state.Finished() then 1 else 0)
    && tally.abandons == (if r.state == Abandoned then 1 else 0)
    && tally.starts <= tally.claims
    && (r.state in {Queued, Claimed} ==> tally.starts <= tally.requeues)
  }

  lemma FreshRow(ops: seq<Op>, k: nat, id: JobId)
    requires k < |ops| && id !in At(ops, k) && id in At(ops, k + 1)
    ensures ops[k].Enqueue? && At(ops, k + 1)[id] == NewRow(ops[k].job, ops[k].now)
    ensures Balanced(At(ops, k + 1)[id], NOTHING)
  {
  }

  lemma BalancedStep(id: JobId, r: Row, op: Op, tally: Tally)
    requires RowOK(id, r) && Balanced(r, tally)
    requires op.Takes(id) ==> ReapRow(r, op.cap, op.now).state == Queued
    ensures Balanced(RowStep(id, r, op), tally.Plus(Transitions(id, r, op)))
  {
  }

  lemma {:induction false} Conservation(ops: seq<Op>, k: nat, id: JobId)
    requires Legal(ops) && k <= |ops| && id in At(ops, k)
    ensures Balanced(At(ops, k)[id], TallyAt(ops, k, id))
  {
    hide Apply, Enabled, Legal, RowStep, Transitions, Balanced;
    StepAt(ops, k - 1, id);
    if id in At(ops, k - 1) {
      Conservation(ops, k - 1, id);
      ReachableOK(ops, k - 1);
      BalancedStep(id, At(ops, k - 1)[id], ops[k - 1], TallyAt(ops, k - 1, id));
    } else {
      FreshRow(ops, k - 1, id);
    }
  }

  // ----- termination measure -----

  /** A claim never tests the cap, so even a cap below one allows a first dispatch. */
  function Dispatches(cap: int): nat { if cap > 1 then cap else 1 }

  predicate Bounded(r: Row, cap: int) {
    r.attempts <= Dispatches(cap) && (r.state == Queued ==> r.attempts < Dispatches(cap))
  }

  function Rank(r: Row, cap: int): nat
    requires Bounded(r, cap)
  {
    3 * (Dispatches(cap) - r.attempts) + Phase(r.state)
  }

  /** Every transition costs at least one unit of rank, and no other change is free of one. */
  lemma RankDrops(id: JobId, r: Row, op: Op, cap: int)
    requires RowOK(id, r) && Bounded(r, cap)
    requires op.Reaps() ==> op.cap == cap
    requires op.Takes(id) ==> ReapRow(r, op.cap, op.now).state == Queued
    ensures Bounded(RowStep(id, r, op), cap)
    ensures Rank(RowStep(id, r, op), cap) + Transitions(id, r, op).Total() <= Rank(r, cap)
    ensures RowStep(id, r, op).state != r.state || RowStep(id, r, op).attempts != r.attempts
      ==> Transitions(id, r, op).Total() >= 1
  {
    MovesAlong(id, r, op, cap);
    hide RowStep, Transitions, RowOK, ReapRow;
  }

  function Phase(s: State): nat {
    if s == Claimed then 2 else if s == Running then 1 else 0
  }

  /** A row moves along within one dispatch, or gives one up for the next. */
  lemma MovesAlong(id: JobId, r: Row, op: Op, cap: int)
    requires RowOK(id, r) && Bounded(r, cap)
    requires op.Reaps() ==> op.cap == cap
    requires op.Takes(id) ==> ReapRow(r, op.cap, op.now).state == Queued
    ensures var s, d := RowStep(id, r, op), Transitions(id, r, op);
      && s.attempts == r.attempts + d.claims && Bounded(s, cap)
      && Phase(s.state) + d.starts + d.requeues + d.finishes + d.abandons <= Phase(r.state) + 2 * d.claims
      && (s.state != r.state ==> d.claims + d.starts + d.requeues + d.finishes + d.abandons >= 1)
  {
  }

  lemma TotalAdds(a: Tally, b: Tally)
    ensures a.Plus(b).Total() == a.Total() + b.Total()
  {
  }

  lemma NewRank(job: Job, now: Time, cap: int)
    ensures Bounded(NewRow(job, now), cap) && Rank(NewRow(job, now), cap) == 3 * Dispatches(cap)
    ensures NOTHING.Total() == 0
  {
  }

  /** A new row starts with the full rank and no transition made. */
  lemma FreshRank(ops: seq<Op>, k: nat, id: JobId, cap: int)
    requires k < |ops| && id !in At(ops, k) && id in At(ops, k + 1)
    ensures Bounded(At(ops, k + 1)[id], cap) && TallyAt(ops, k + 1, id).Total() == 0
    ensures Rank(At(ops, k + 1)[id], cap) == 3 * Dispatches(cap)
  {
    assert TallyAt(ops, k + 1, id) == NOTHING by { hide At; }
    FreshRow(ops, k, id);
    hide At, TallyAt, Rank, Bounded, Dispatches, NewRow, Tally.Total;
    NewRank(ops[k].job, ops[k].now, cap);
  }

  lemma {:induction false} RankSum(ops: seq<Op>, k: nat, id: JobId, cap: int)
    requires Legal(ops) && FixedCap(ops, cap) && k <= |ops| && id in At(ops, k)
    ensures Bounded(At(ops, k)[id], cap)
    ensures TallyAt(ops, k, id).Total() + Rank(At(ops, k)[id], cap) <= 3 * Dispatches(cap)
  {
    if id in At(ops, k - 1) {
      hide Apply, At, Enabled, Legal, RowStep, Transitions, ReapRow, RowOK;
      hide Rank, Bounded, Dispatches, Tally.Total, Tally.Plus;
      StepAt(ops, k - 1, id);
      RankSum(ops, k - 1, id, cap);
      ReachableOK(ops, k - 1);
      RankDrops(id, At(ops, k - 1)[id], ops[k - 1], cap);
      TotalAdds(TallyAt(ops, k - 1, id), Transitions(id, At(ops, k - 1)[id], ops[k - 1]));
    } else {
      FreshRank(ops, k - 1, id, cap);
    }
  }

  /**
    With one cap, a job makes at most 3N transitions and is dispatched at most N
    times, in a run of any length under any clock.
  */
  lemma RankBound(ops: seq<Op>, k: nat, id: JobId, cap: int)
    requires Legal(ops) && FixedCap(ops, cap) && k <= |ops| && id in At(ops, k)
    ensures Bounded(At(ops, k)[id], cap)
    ensures TallyAt(ops, k, id).Total() + Rank(At(ops, k)[id], cap) <= 3 * Dispatches(cap)
    ensures TallyAt(ops, k, id).claims <= Dispatches(cap)
    ensures TallyAt(ops, k, id).requeues <= Dispatches(cap) - 1
  {
    hide At, Legal, FixedCap, TallyAt, Dispatches;
    RankSum(ops, k, id, cap);
    Conservation(ops, k, id);
  }

  // ----- the measure is exact -----

  lemma {:induction false} TallyPrefix(ops: seq<Op>, more: seq<Op>, k: nat, id: JobId)
    requires k <= |ops|
    ensures TallyAt(ops + more, k, id) == TallyAt(ops, k, id)
  {
    hide Apply, Transitions;
    if k > 0 {
      AtPrefix(ops, more, k - 1);
      TallyPrefix(ops, more, k - 1, id);
    }
  }

  /** The table holds this one row, reached by this legal run with this tally. */
  ghost predicate Reached(ops: seq<Op>, cap: int, id: JobId, r: Row, tally: Tally) {
    Legal(ops) && FixedCap(ops, cap) && At(ops, |ops|) == map[id := r] && TallyAt(ops, |ops|, id) == tally
  }

  lemma OneRow(id: JobId, r: Row, op: Op)
    requires !op.Enqueue?
    ensures Apply(map[id := r], op) == map[id := RowStep(id, r, op)]
  {
  }

  lemma ReachNext(ops: seq<Op>, cap: int, id: JobId, r: Row, tally: Tally, op: Op)
    requires Reached(ops, cap, id, r, tally) && !op.Enqueue? && (op.Reaps() ==> op.cap == cap)
    requires Enabled(map[id := r], op)
    ensures Reached(ops + [op], cap, id, RowStep(id, r, op), tally.Plus(Transitions(id, r, op)))
  {
    hide Apply, Enabled, RowStep, Transitions;
    LegalExtends(ops, op);
    OneRow(id, r, op);
    TallyPrefix(ops, [op], |ops|, id);
    AtPrefix(ops, [op], |ops|);
  }

  lemma OnlyOneToPick(id: JobId, r: Row, cap: int)
    requires r.state == Queued
    ensures Enabled(map[id := r], Claim("r", {}, 1.0, cap, 0.0, Some(id)))
    ensures forall t: Table, op: Op :: !op.Claim? ==> Enabled(t, op)
  {
    assert Reaped(map[id := r], cap, 0.0) == map[id := r];
  }

  /** One dispatch that starts, never answers, and is reaped. */
  lemma ReachRound(ops: seq<Op>, cap: int, id: JobId, r: Row, tally: Tally) returns (more: seq<Op>, s: Row)
    requires Reached(ops, cap, id, r, tally) && RowOK(id, r) && r.state == Queued
    ensures RowOK(id, s) && s.attempts == r.attempts + 1
    ensures s.state == if s.attempts < cap then Queued else Abandoned
    ensures Reached(more, cap, id, s,
      tally.Plus(if s.attempts < cap then Tally(1, 1, 1, 0, 0) else Tally(1, 1, 0, 0, 1)))
  {
    hide Reached;
    var claim := Claim("r", {}, 1.0, cap, 0.0, Some(id));
    OnlyOneToPick(id, r, cap);
    hide Enabled;
    ReachNext(ops, cap, id, r, tally, claim);
    var taken := RowStep(id, r, claim);
    var begin := MarkRunning(id, "r", 0.0);
    assert !begin.Claim?;
    ReachNext(ops + [claim], cap, id, taken, tally.Plus(Transitions(id, r, claim)), begin);
    var begun := RowStep(id, taken, begin);
    var reap := Reap(cap, 2.0);
    ReachNext(ops + [claim] + [begin], cap, id, begun,
              tally.Plus(Transitions(id, r, claim)).Plus(Transitions(id, taken, begin)), reap);
    more, s := ops + [claim] + [begin] + [reap], RowStep(id, begun, reap);
  }

  /** After `n` such dispatches, while any are left. */
  lemma {:induction false} ReachRounds(job: Job, cap: int, n: nat) returns (ops: seq<Op>, r: Row)
    requires n < Dispatches(cap)
    ensures RowOK(job.id, r) && r.state == Queued && r.attempts == n
    ensures Reached(ops, cap, job.id, r, Tally(n, n, n, 0, 0))
  {
    if n == 0 {
      ops, r := [Enqueue(job, 0.0)], NewRow(job, 0.0);
      assert At(ops, 0) == map[];
      assert LegalAt(ops, 0);
    } else {
      hide Reached, RowOK;
      ops, r := ReachRounds(job, cap, n - 1);
      ops, r := ReachRound(ops, cap, job.id, r, Tally(n - 1, n - 1, n - 1, 0, 0));
    }
  }

  /** Every dispatch started, all but the last requeued, the last abandoned. */
  function WorstTally(cap: int): Tally {
    Tally(Dispatches(cap), Dispatches(cap), Dispatches(cap) - 1, 0, 1)
  }

  /** The bounds of `RankBound` are attained under every cap: N dispatches, N - 1 requeues, 3N transitions. */
  lemma RankBoundIsExact(job: Job, cap: int)
    ensures exists ops, r :: Reached(ops, cap, job.id, r, WorstTally(cap))
    ensures WorstTally(cap).Total() == 3 * Dispatches(cap)
  {
    hide Reached, RowOK;
    var n := Dispatches(cap);
    var ops, r := ReachRounds(job, cap, n - 1);
    ops, r := ReachRound(ops, cap, job.id, r, Tally(n - 1, n - 1, n - 1, 0, 0));
    assert Reached(ops, cap, job.id, r, WorstTally(cap));
  }

  // ----- tenures -----

  /** The latest call among the first `k` that handed the job out, or -1. */
  function LastClaim(ops: seq<Op>, k: nat, id: JobId): int
    requires k <= |ops|
    ensures -1 <= LastClaim(ops, k, id) < k
    ensures LastClaim(ops, k, id) >= 0 ==> ops[LastClaim(ops, k, id)].Takes(id)
    ensures forall m | LastClaim(ops, k, id) < m < k :: !ops[m].Takes(id)
  {
    if k == 0 then -1
    else if ops[k - 1].Takes(id) then k - 1
    else LastClaim(ops, k - 1, id)
  }

  /** From just after the claim at `i` up to `k`, the job stayed with that claim. */
  ghost predicate Held(ops: seq<Op>, i: nat, k: nat, id: JobId)
    requires i < k <= |ops| && ops[i].Takes(id)
  {
    forall m | i < m <= k :: SameTenure(ops, i, m, id)
  }

  ghost predicate SameTenure(ops: seq<Op>, i: nat, m: nat, id: JobId)
    requires i < m <= |ops| && ops[i].Takes(id)
  {
    && id in At(ops, m) && id in At(ops, i + 1)
    && HeldBy(At(ops, m)[id], ops[i].runner)
    && At(ops, m)[id].attempts == At(ops, i + 1)[id].attempts
  }

  lemma HeldThroughout(ops: seq<Op>, i: nat, k: nat, m: nat, id: JobId)
    requires i < m <= k <= |ops| && ops[i].Takes(id) && Held(ops, i, k, id)
    ensures SameTenure(ops, i, m, id)
  {
  }

  lemma HeldStarts(ops: seq<Op>, i: nat, id: JobId)
    requires i < |ops| && ops[i].Takes(id) && id in At(ops, i + 1) && HeldBy(At(ops, i + 1)[id], ops[i].runner)
    ensures Held(ops, i, i + 1, id)
  {
  }

  lemma HeldExtends(ops: seq<Op>, i: nat, m: nat, id: JobId)
    requires i < m < |ops| && ops[i].Takes(id) && Held(ops, i, m, id) && id in At(ops, m)
    requires id in At(ops, m + 1) && Continues(At(ops, m)[id], At(ops, m + 1)[id])
    ensures Held(ops, i, m + 1, id)
  {
    hide Apply;
    assert SameTenure(ops, i, m, id);
  }

  lemma RowHolder(id: JobId, r: Row, op: Op)
    requires RowOK(id, r)
    requires op.Takes(id) ==> ReapRow(r, op.cap, op.now).state == Queued
    ensures var s := RowStep(id, r, op);
      if op.Takes(id) then HeldBy(s, op.runner)
      else s.state != Queued ==>
        r.state != Queued && s.holder == r.holder
        && (s.state.Active() ==> r.state.Active() && s.attempts == r.attempts)
  {
  }

  /**
    The recorded holder is always the runner of the latest claim, and while the
    job is out nobody else has had it since. So an accepted result or start
    always belongs to the current tenure.
  */
  lemma {:induction false} HolderIsLastClaimer(ops: seq<Op>, k: nat, id: JobId)
    requires Legal(ops) && k <= |ops| && id in At(ops, k) && At(ops, k)[id].state != Queued
    ensures var i := LastClaim(ops, k, id);
      && i >= 0
      && At(ops, k)[id].holder == Some(ops[i].runner)
      && (At(ops, k)[id].state.Active() ==> Held(ops, i, k, id))
  {
    hide Apply, Enabled, RowStep, Legal, Held;
    StepAt(ops, k - 1, id);
    if id !in At(ops, k - 1) {
      FreshRow(ops, k - 1, id);
      assert false;
    }
    ReachableOK(ops, k - 1);
    RowHolder(id, At(ops, k - 1)[id], ops[k - 1]);
    if ops[k - 1].Takes(id) {
      HeldStarts(ops, k - 1, id);
    } else {
      HolderIsLastClaimer(ops, k - 1, id);
      if At(ops, k)[id].state.Active() {
        HeldExtends(ops, LastClaim(ops, k - 1, id), k - 1, id);
      }
    }
  }

  /** An accepted start or result comes from the runner of the latest claim, still in that tenure. */
  lemma AcceptedIsCurrent(ops: seq<Op>, k: nat)
    requires Legal(ops) && k < |ops| && (ops[k].Finish? || ops[k].MarkRunning?) && Accepted(ops, k)
    ensures var i := LastClaim(ops, k, ops[k].id);
      i >= 0 && ops[i].runner == ops[k].runner && Held(ops, i, k, ops[k].id)
  {
    HolderIsLastClaimer(ops, k, ops[k].id);
  }

  /** The latest accepted start of the job among the first `k` calls, or -1. */
  function LastStart(ops: seq<Op>, k: nat, id: JobId): int
    requires k <= |ops|
    ensures -1 <= LastStart(ops, k, id) < k
  {
    if k == 0 then -1
    else if ops[k - 1].MarkRunning? && ops[k - 1].id == id && Accepted(ops, k - 1) then k - 1
    else LastStart(ops, k - 1, id)
  }

  lemma StartedColumn(id: JobId, r: Row, op: Op)
    requires RowOK(id, r)
    requires op.Takes(id) ==> ReapRow(r, op.cap, op.now).state == Queued
    ensures var s := RowStep(id, r, op);
      var starts := op.MarkRunning? && op.id == id && r.state == Claimed && r.holder == Some(op.runner);
      && s.startedAt == (if starts then Some(op.now) else r.startedAt)
      && (s.state == Running <==> starts || (r.state == Running && s.state.Active() && !op.Takes(id)))
      && (op.Takes(id) ==> s.state == Claimed)
  {
  }

  /**
    `started_at` is the stamp of the job's latest accepted start, across requeues,
    and a job that is out is running exactly if it was started since it was last
    handed out.
  */
  lemma {:induction false} StartIsRecorded(ops: seq<Op>, k: nat, id: JobId)
    requires Legal(ops) && k <= |ops| && id in At(ops, k)
    ensures var n, r := LastStart(ops, k, id), At(ops, k)[id];
      && r.startedAt == (if n < 0 then None else Some(ops[n].now))
      && (r.state == Running <==> r.state.Active() && n > LastClaim(ops, k, id))
  {
    hide Apply, Enabled, RowStep, Legal;
    StepAt(ops, k - 1, id);
    if id in At(ops, k - 1) {
      StartIsRecorded(ops, k - 1, id);
      ReachableOK(ops, k - 1);
      StartedColumn(id, At(ops, k - 1)[id], ops[k - 1]);
      RowHolder(id, At(ops, k - 1)[id], ops[k - 1]);
    } else {
      FreshRow(ops, k - 1, id);
      NeverStarted(ops, k - 1, id);
    }
  }

  lemma {:induction false} NeverStarted(ops: seq<Op>, k: nat, id: JobId)
    requires k <= |ops| && id !in At(ops, k)
    ensures LastStart(ops, k, id) == -1
  {
    hide Apply;
    if k > 0 {
      StepAt(ops, k - 1, id);
      NeverStarted(ops, k - 1, id);
    }
  }

  /** The call at `m` requeues or abandons the job: its stamp is strictly past the lease then on record. */
  ghost predicate EndsTenure(ops: seq<Op>, m: nat, id: JobId)
    requires m < |ops|
  {
    ops[m].Reaps() && id in At(ops, m) && Lapsed(At(ops, m)[id], ops[m].now)
  }

  /**
    An active row leaves its tenure only by its holder's own result or by a reap
    stamped past the lease on record.
  */
  lemma TenureStep(ops: seq<Op>, m: nat, id: JobId)
    requires Legal(ops) && m < |ops| && id in At(ops, m) && At(ops, m)[id].state.Active()
    ensures id in At(ops, m + 1)
    ensures
      || EndsTenure(ops, m, id)
      || OwnResult(id, At(ops, m)[id], ops[m], At(ops, m + 1)[id])
      || (Continues(At(ops, m)[id], At(ops, m + 1)[id]) && !ops[m].Takes(id))
  {
    hide Apply, Enabled, RowStep;
    ReachableOK(ops, m);
    StepAt(ops, m, id);
    RowTenure(id, At(ops, m)[id], ops[m]);
  }

  /** The holder's own result closes the row. */
  predicate OwnResult(id: JobId, r: Row, op: Op, s: Row) {
    op.Finish? && op.id == id && r.holder == Some(op.runner) && s.state.Finished()
  }

  predicate Continues(r: Row, s: Row) {
    s.state.Active() && s.holder == r.holder && s.attempts == r.attempts
  }

  lemma RowTenure(id: JobId, r: Row, op: Op)
    requires RowOK(id, r) && r.state.Active()
    requires op.Takes(id) ==> ReapRow(r, op.cap, op.now).state == Queued
    ensures
      || (op.Reaps() && Lapsed(r, op.now))
      || OwnResult(id, r, op, RowStep(id, r, op))
      || (Continues(r, RowStep(id, r, op)) && !op.Takes(id))
  {
  }

  /**
    Between two claims of one job there is a reap whose stamp is strictly above
    the lease last written for the first tenure; up to it the first runner held
    the job, and from it to the second claim the job is queued, held by nobody.
  */
  lemma {:induction false} SeparatedTenures(ops: seq<Op>, i: nat, j: nat, id: JobId)
    requires Legal(ops) && i < j < |ops| && ops[i].Takes(id) && ops[j].Takes(id)
    requires forall m | i < m < j :: !ops[m].Takes(id)
    ensures exists m ::
      && i < m <= j && EndsTenure(ops, m, id) && Held(ops, i, m, id)
      && forall n | m < n <= j :: id in At(ops, n) && At(ops, n)[id].state == Queued
  {
    hide Apply, Enabled, RowStep, Legal, Held, EndsTenure;
    StepAt(ops, i, id);
    ReachableOK(ops, i);
    RowHolder(id, At(ops, i)[id], ops[i]);
    HeldStarts(ops, i, id);
    var m := i + 1;
    while !EndsTenure(ops, m, id)
      invariant i < m <= j && Held(ops, i, m, id)
      decreases j - m
    {
      StaysUntilReaped(ops, i, m, j, id);
      m := m + 1;
    }
    QueuedBetween(ops, m, j, id);
  }

  lemma StaysUntilReaped(ops: seq<Op>, i: nat, m: nat, j: nat, id: JobId)
    requires Legal(ops) && i < m <= j < |ops| && ops[i].Takes(id) && ops[j].Takes(id)
    requires Held(ops, i, m, id) && !EndsTenure(ops, m, id)
    ensures m < j && Held(ops, i, m + 1, id)
  {
    hide Apply, Enabled, RowStep, Legal;
    HeldThroughout(ops, i, m, m, id);
    StepAt(ops, j, id);
    TenureStep(ops, m, id);
    if m < j && At(ops, m + 1)[id].state.Finished() {
      TerminalForever(ops, m + 1, j, id);
    }
    HeldExtends(ops, i, m, id);
  }

  /** After the reap that ended it, the job waits in the queue until it is claimed again. */
  lemma QueuedBetween(ops: seq<Op>, m: nat, j: nat, id: JobId)
    requires Legal(ops) && m <= j < |ops| && EndsTenure(ops, m, id) && ops[j].Takes(id)
    requires forall n | m <= n < j :: !ops[n].Takes(id)
    ensures forall n | m < n <= j :: id in At(ops, n) && At(ops, n)[id].state == Queued
  {
    hide Apply, Enabled, RowStep, Legal;
    StepAt(ops, j, id);
    forall n | m < n <= j ensures id in At(ops, n) && At(ops, n)[id].state == Queued {
      NotActiveUntil(ops, m, n, id);
      if At(ops, n)[id].state.Terminal() {
        TerminalForever(ops, n, j, id);
      }
    }
  }

  lemma {:induction false} NotActiveUntil(ops: seq<Op>, m: nat, n: nat, id: JobId)
    requires Legal(ops) && m < n <= |ops| && EndsTenure(ops, m, id)
    requires forall q | m <= q < n :: !ops[q].Takes(id)
    ensures id in At(ops, n) && !At(ops, n)[id].state.Active()
  {
    hide Apply, Enabled, Legal;
    StepAt(ops, n - 1, id);
    if m < n - 1 {
      NotActiveUntil(ops, m, n - 1, id);
    }
  }

  /**
    The first holder is shut out from the reap on: until it claims the job again,
    its starts and results for it are refused and change nothing.
  */
  lemma {:induction false} FormerHolderRefused(ops: seq<Op>, m: nat, k: nat, id: JobId, runner: RunnerId)
    requires Legal(ops) && m < k < |ops| && EndsTenure(ops, m, id)
    requires forall n | m <= n < k && ops[n].Takes(id) :: ops[n].runner != runner
    requires (ops[k].Finish? || ops[k].MarkRunning?) && ops[k].id == id && ops[k].runner == runner
    ensures !Accepted(ops, k) && At(ops, k + 1) == At(ops, k)
  {
    hide Apply, Enabled, Legal, RowStep;
    if Accepted(ops, k) {
      AcceptedIsCurrent(ops, k);
      var i := LastClaim(ops, k, id);
      if i < m {
        HeldThroughout(ops, i, k, m + 1, id);
        NotActiveUntil(ops, m, m + 1, id);
      }
      assert false;
    }
    RefusedChangesNothing(At(ops, k), ops[k]);
  }

  lemma RefusedChangesNothing(t: Table, op: Op)
    requires (op.Finish? || op.MarkRunning?) && !Accepts(t, op)
    ensures Apply(t, op) == t
  {
  }

  /**
    Retries under interference. Of the posts one runner makes of one result,
    with no claim of that job by it in between, only the first that reaches the
    queue can be accepted, whatever everybody else does meanwhile.
  */
  lemma OnlyFirstArrivalCounts(ops: seq<Op>, first: nat, later: nat)
    requires Legal(ops) && first < later < |ops| && ops[first].Finish? && ops[later].Finish?
    requires ops[first].id == ops[later].id && ops[first].runner == ops[later].runner
    requires forall n | first <= n < later && ops[n].Takes(ops[first].id) :: ops[n].runner != ops[first].runner
    ensures !Accepted(ops, later) && At(ops, later + 1) == At(ops, later)
  {
    hide Apply, Legal, RowStep;
    var id := ops[first].id;
    if Accepted(ops, later) {
      AcceptedIsCurrent(ops, later);
      var i := LastClaim(ops, later, id);
      if i < first {
        HeldThroughout(ops, i, later, first, id);
        AtMostOneFinish(ops, first, later);
      }
      assert false;
    }
    RefusedChangesNothing(At(ops, later), ops[later]);
  }

  // ----- counting rows -----

  function InState(t: Table, s: State): set<JobId> {
    set id | id in t && t[id].state == s
  }

  function AcceptedEnqueues(ops: seq<Op>, k: nat): nat
    requires k <= |ops|
  {
    if k == 0 then 0
    else AcceptedEnqueues(ops, k - 1) + if ops[k - 1].Enqueue? && Accepted(ops, k - 1) then 1 else 0
  }

  lemma CountsAddUp(t: Table)
    ensures |InState(t, Queued)| + |InState(t, Claimed)| + |InState(t, Running)|
      + |InState(t, Done)| + |InState(t, Failed)| + |InState(t, Abandoned)| == |t|
  {
    assert t.Keys == InState(t, Queued) + InState(t, Claimed) + InState(t, Running)
      + InState(t, Done) + InState(t, Failed) + InState(t, Abandoned);
    assert |t| == |t.Keys|;
    StatesAreDisjoint(t);
    hide InState;
    SixParts(InState(t, Queued), InState(t, Claimed), InState(t, Running),
             InState(t, Done), InState(t, Failed), InState(t, Abandoned));
  }

  lemma StatesAreDisjoint(t: Table)
    ensures InState(t, Queued) !! InState(t, Claimed) !! InState(t, Running)
      !! InState(t, Done) !! InState(t, Failed) !! InState(t, Abandoned)
  {
    var q, c, r := InState(t, Queued), InState(t, Claimed), InState(t, Running);
    var d, f := InState(t, Done), InState(t, Failed);
    assert q !! c;
    assert q + c !! r;
    assert q + c + r !! d;
    assert q + c + r + d !! f;
    assert q + c + r + d + f !! InState(t, Abandoned);
  }

  lemma SixParts(q: set<JobId>, c: set<JobId>, r: set<JobId>, d: set<JobId>, f: set<JobId>, a: set<JobId>)
    requires q !! c !! r !! d !! f !! a
    ensures |q + c + r + d + f + a| == |q| + |c| + |r| + |d| + |f| + |a|
  {
  }

  /** No job is lost: the per-state counts always sum to the accepted enqueues. */
  lemma {:induction false} NoJobLost(ops: seq<Op>, k: nat)
    requires k <= |ops|
    ensures |At(ops, k)| == AcceptedEnqueues(ops, k)
    ensures var t := At(ops, k);
      |InState(t, Queued)| + |InState(t, Claimed)| + |InState(t, Running)|
      + |InState(t, Done)| + |InState(t, Failed)| + |InState(t, Abandoned)| == AcceptedEnqueues(ops, k)
  {
    hide InState;
    CountsAddUp(At(ops, k));
    if k > 0 {
      NoJobLost(ops, k - 1);
      if !(ops[k - 1].Enqueue? && Accepted(ops, k - 1)) {
        assert At(ops, k).Keys == At(ops, k - 1).Keys;
        assert |At(ops, k).Keys| == |At(ops, k - 1).Keys|;
      }
    }
  }
}
