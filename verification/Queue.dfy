/**
  The two tables of the edge as values: the `jobs` rows, the statements that
  the store runs on them, and the atomic step each statement or transaction is.
  Stamps and leases are reals; every operation carries the stamp it was given,
  and nothing here assumes that stamps come in commit order.
*/
module Options {
  datatype Option<+T> = None | Some(value: T) {
    function GetOr(other: T): T { if Some? then value else other }
  }
}

module Queue {
  import opened Options

  type JobId = string
  type RunnerId = string
  type Time = real

  datatype State = Queued | Claimed | Running | Done | Failed | Abandoned {
    /** Somebody holds the job under a lease. */
    predicate Active() { Claimed? || Running? }
    /** The job carries a result that somebody posted. */
    predicate Finished() { Done? || Failed? }
    predicate Terminal() { Finished() || Abandoned? }
  }

  datatype Job = Job(
    id: JobId, product: string, server: string,
    selectExpr: Option<string>, marker: Option<string>,
    channel: string, user: string)

  datatype Outcome = Outcome(exitCode: int, passed: int, failed: int, skipped: int, duration: real)

  /** One line of the `jobs` table; `None` is SQL's NULL. */
  datatype Row = Row(
    job: Job, createdAt: Time, state: State,
    holder: Option<RunnerId>, lease: Option<Time>, attempts: nat,
    startedAt: Option<Time>, finishedAt: Option<Time>,
    outcome: Option<Outcome>, summary: Option<string>)

  /** The primary key is the job id. */
  type Table = map<JobId, Row>

  const OUT_OF_ATTEMPTS := "lease expired and out of attempts"

  /**
    One committed call of the store. `Claim` records which row it took, because
    ORDER BY leaves rows of equal `created_at` in any order.
  */
  datatype Op =
    | Enqueue(job: Job, now: Time)
    | Claim(runner: RunnerId, wanted: set<string>, leaseSeconds: real, cap: int, now: Time, pick: Option<JobId>)
    | MarkRunning(id: JobId, runner: RunnerId, now: Time)
    | Finish(id: JobId, runner: RunnerId, outcome: Outcome, note: string, now: Time)
    | Renew(runner: RunnerId, leaseSeconds: real, now: Time)
    | Reap(cap: int, now: Time)
  {
    /** The calls that start by requeueing or abandoning what has lapsed. */
    predicate Reaps() { Claim? || Reap? }
    predicate Takes(j: JobId) { Claim? && pick == Some(j) }
  }

  // ----- one row under one statement -----

  function NewRow(job: Job, now: Time): Row {
    Row(job, now, Queued, None, None, 0, None, None, None, None)
  }

  /** Strictly past its lease: at equality the holder still holds. */
  predicate Lapsed(r: Row, now: Time) {
    r.state.Active() && r.lease.Some? && r.lease.value < now
  }

  function ReapRow(r: Row, cap: int, now: Time): Row {
    if !Lapsed(r, now) then r
    else if r.attempts < cap then r.(state := Queued, holder := None, lease := None)
    else r.(state := Abandoned, lease := None, summary := Some(OUT_OF_ATTEMPTS))
  }

  function TakeRow(r: Row, runner: RunnerId, expires: Time): Row {
    r.(state := Claimed, holder := Some(runner), lease := Some(expires), attempts := r.attempts + 1)
  }

  predicate HeldBy(r: Row, runner: RunnerId) {
    r.state.Active() && r.holder == Some(runner)
  }

  predicate Startable(r: Row, runner: RunnerId) {
    r.state == Claimed && r.holder == Some(runner)
  }

  function FinishRow(r: Row, outcome: Outcome, note: string, now: Time): Row {
    r.(state := if outcome.exitCode == 0 then Done else Failed,
       finishedAt := Some(now), outcome := Some(outcome), summary := Some(note), lease := None)
  }

  /** What one call does to the row stored under `id`. */
  function RowStep(id: JobId, r: Row, op: Op): Row {
    match op
    case Enqueue(_, _) => r
    case Claim(runner, _, leaseSeconds, cap, now, pick) =>
      var swept := ReapRow(r, cap, now);
      if pick == Some(id) then TakeRow(swept, runner, now + leaseSeconds) else swept
    case MarkRunning(j, runner, now) =>
      if j == id && Startable(r, runner) then r.(state := Running, startedAt := Some(now)) else r
    case Finish(j, runner, outcome, note, now) =>
      if j == id && HeldBy(r, runner) then FinishRow(r, outcome, note, now) else r
    case Renew(runner, leaseSeconds, now) =>
      if HeldBy(r, runner) then r.(lease := Some(now + leaseSeconds)) else r
    case Reap(cap, now) => ReapRow(r, cap, now)
  }

  // ----- the table under one call -----

  function Reaped(t: Table, cap: int, now: Time): Table {
    map id | id in t :: ReapRow(t[id], cap, now)
  }

  function Apply(t: Table, op: Op): Table {
    if op.Enqueue? && op.job.id !in t
    then t[op.job.id := NewRow(op.job, op.now)]
    else map id | id in t :: RowStep(id, t[id], op)
  }

  /** A runner with no labels takes anything; a labelled one only its own environments. */
  predicate Eligible(r: Row, wanted: set<string>) {
    r.state == Queued && (wanted == {} || r.job.server in wanted)
  }

  ghost predicate OldestEligible(t: Table, wanted: set<string>, id: JobId) {
    && id in t && Eligible(t[id], wanted)
    && forall other | other in t && Eligible(t[other], wanted) :: t[id].createdAt <= t[other].createdAt
  }

  ghost predicate NothingEligible(t: Table, wanted: set<string>) {
    forall id | id in t :: !Eligible(t[id], wanted)
  }

  /** The answers a claim may give: they are judged on the table after its own reap. */
  ghost predicate PickOK(t: Table, wanted: set<string>, pick: Option<JobId>) {
    match pick
    case None => NothingEligible(t, wanted)
    case Some(id) => OldestEligible(t, wanted, id)
  }

  ghost predicate Enabled(t: Table, op: Op) {
    op.Claim? ==> PickOK(Reaped(t, op.cap, op.now), op.wanted, op.pick)
  }

  /** The answer the caller sees: a row was inserted, handed out or updated. */
  predicate Accepts(t: Table, op: Op) {
    match op
    case Enqueue(job, _) => job.id !in t
    case Claim(_, _, _, _, _, pick) => pick.Some?
    case MarkRunning(id, runner, _) => id in t && Startable(t[id], runner)
    case Finish(id, runner, _, _, _) => id in t && HeldBy(t[id], runner)
    case Renew(runner, _, _) => exists id | id in t :: HeldBy(t[id], runner)
    case Reap(_, _) => true
  }

  // ----- well-formed rows -----

  predicate RowOK(id: JobId, r: Row) {
    && r.job.id == id
    && (r.lease.Some? <==> r.state.Active())
    && (r.holder.None? <==> r.state == Queued)
    && (r.finishedAt.Some? <==> r.state.Finished())
    && (r.outcome.Some? <==> r.state.Finished())
    && (r.summary.Some? <==> r.state.Terminal())
    && (r.state == Done ==> r.outcome.value.exitCode == 0)
    && (r.state == Failed ==> r.outcome.value.exitCode != 0)
    && (r.state == Abandoned ==> r.summary == Some(OUT_OF_ATTEMPTS))
    && (r.state == Running ==> r.startedAt.Some?)
    && (r.state != Queued ==> r.attempts >= 1)
  }

  ghost predicate TableOK(t: Table) {
    forall id | id in t :: RowOK(id, t[id])
  }

  /** No call deletes a row, and only an accepted enqueue adds one. */
  lemma ApplyRow(t: Table, op: Op, id: JobId)
    ensures id in Apply(t, op) <==> id in t || (op.Enqueue? && op.job.id == id)
    ensures id in t ==> Apply(t, op)[id] == RowStep(id, t[id], op)
  {
  }

  /** A claim takes only a row that its own reap left queued. */
  lemma TakenWasQueued(t: Table, op: Op, id: JobId)
    requires Enabled(t, op) && op.Takes(id)
    ensures id in t && ReapRow(t[id], op.cap, op.now).state == Queued
  {
    assert Eligible(Reaped(t, op.cap, op.now)[id], op.wanted);
  }

  lemma RowKeepsOK(id: JobId, r: Row, op: Op)
    requires RowOK(id, r)
    requires op.Takes(id) ==> ReapRow(r, op.cap, op.now).state == Queued
    ensures RowOK(id, RowStep(id, r, op))
  {
  }

  lemma ApplyKeepsOK(t: Table, op: Op)
    requires TableOK(t) && Enabled(t, op)
    ensures TableOK(Apply(t, op))
  {
    forall id | id in Apply(t, op) ensures RowOK(id, Apply(t, op)[id]) {
      ApplyRow(t, op, id);
      if id in t {
        assert RowOK(id, t[id]);
        if op.Takes(id) {
          TakenWasQueued(t, op, id);
        }
        RowKeepsOK(id, t[id], op);
      }
    }
  }
}
