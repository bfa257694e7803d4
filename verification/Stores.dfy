/**
  The store as it is written: two tables updated in place by statements that
  scan rows. The ghost `log` is the run so far; `Valid` says the jobs table is
  what that run makes of the empty table, so every theorem about runs holds of
  every store that was only ever used through these methods.
*/
module Stores {
  import opened Options
  import opened Queue
  import opened Runs
  import Text

  datatype RunnerRow = RunnerRow(publicKey: string, labels: string, enrolledAt: Time, lastSeen: Time)

  /** The set a claim filters by: a label list without its empty strings. */
  function Wanted(labels: seq<string>): set<string> {
    set x | x in labels && x != ""
  }

  function Picked(got: Option<Job>): Option<JobId> {
    if got.Some? then Some(got.value.id) else None
  }

  /** What an enrolment stores of its labels, and what a reader of the row makes of it. */
  function Stored(labels: seq<string>): string { Text.Join(Text.Sorted(labels), ',') }

  function ReadBack(stored: string): seq<string> { Text.NonEmpty(Text.Split(stored, ',')) }

  // ----- what the single statements do -----

  predicate Requeues(r: Row, cap: int, now: Time) { Lapsed(r, now) && r.attempts < cap }

  predicate Abandons(r: Row, cap: int, now: Time) { Lapsed(r, now) && r.attempts >= cap }

  function RequeueRow(r: Row, cap: int, now: Time): Row {
    if Requeues(r, cap, now) then r.(state := Queued, holder := None, lease := None) else r
  }

  function AbandonRow(r: Row, cap: int, now: Time): Row {
    if Abandons(r, cap, now) then r.(state := Abandoned, lease := None, summary := Some(OUT_OF_ATTEMPTS)) else r
  }

  function ExtendRow(r: Row, runner: RunnerId, expires: Time): Row {
    if r.state.Active() && r.holder == Some(runner) then r.(lease := Some(expires)) else r
  }

  /** What a reap makes of a row, written out. */
  predicate ReapedRow(r: Row, s: Row, cap: int, now: Time) {
    var past := r.state in {Claimed, Running} && r.lease.Some? && r.lease.value < now;
    && (past && r.attempts < cap ==> s == r.(state := Queued, holder := None, lease := None))
    && (past && r.attempts >= cap ==>
      s == r.(state := Abandoned, lease := None, summary := Some("lease expired and out of attempts")))
    && (!past ==> s == r)
  }

  /** A runner without labels takes any job, another only those for an environment it names; empty labels are none. */
  predicate MayTake(labels: seq<string>, server: string) {
    (forall x | x in labels :: x == "") || (server != "" && server in labels)
  }

  function HeldRows(t: Table, runner: RunnerId): set<JobId> {
    set id | id in t && HeldBy(t[id], runner)
  }

  /** The rows of the ordered select: every queued row once and nothing else, oldest first. */
  ghost predicate QueuedInOrder(t: Table, rows: seq<Row>) {
    && (forall r | r in rows :: RowIn(t, r) && r.state == Queued)
    && (forall id | id in t && t[id].state == Queued :: t[id] in rows)
    && |rows| == |InState(t, Queued)| && OrderedByAge(rows)
  }

  predicate RowIn(t: Table, r: Row) { r.job.id in t && t[r.job.id] == r }

  ghost predicate OrderedByAge(rows: seq<Row>) {
    forall i, j | 0 <= i < j < |rows| :: rows[i].createdAt <= rows[j].createdAt
  }

  ghost predicate Keyed(t: Table) {
    forall id | id in t :: t[id].job.id == id
  }

  /** Calls with their commit times: in order, between two moments, each stamped at most `skew` before. */
  ghost predicate Dated(ops: seq<Op>, times: seq<Time>, from: Time, until: Time, skew: real) {
    && |times| == |ops|
    && (forall k | 0 <= k < |ops| :: times[k] - skew <= ops[k].now <= times[k] && from <= times[k] <= until)
    && (forall k, n | 0 <= k <= n < |ops| :: times[k] <= times[n])
  }

  class Store {
    var jobs: Table
    var runners: map<RunnerId, RunnerRow>
    ghost var log: seq<Op>

    ghost predicate Valid()
      reads this
    {
      Legal(log) && jobs == At(log, |log|)
    }

    constructor ()
      ensures Valid() && jobs == map[] && runners == map[] && log == []
    {
      jobs, runners, log := map[], map[], [];
    }

    /** Appends a committed call to the history. */
    ghost method Commit(op: Op, before: Table)
      requires Legal(log) && before == At(log, |log|)
      requires Enabled(before, op) && jobs == Apply(before, op)
      modifies this`log
      ensures Valid() && log == old(log) + [op]
    {
      LegalExtends(log, op);
      log := log + [op];
    }

    /**
      What other callers do to the same tables between two calls of one caller.
      Nothing is known of it but that it appends to what was committed.
    */
    method Others() returns (ghost foreign: seq<Op>)
      requires Valid()
      modifies this
      ensures Valid() && log == old(log) + foreign
    {
      foreign := [];
    }

    /** The same over a stretch of time: every call is dated, in order, and its stamp lags by at most `skew`. */
    method OthersWithin(ghost from: Time, ghost until: Time, ghost skew: real)
      returns (ghost foreign: seq<Op>, ghost times: seq<Time>)
      requires Valid() && from <= until && 0.0 <= skew
      modifies this
      ensures Valid() && log == old(log) + foreign && Dated(foreign, times, from, until, skew)
    {
      foreign, times := [], [];
    }

    // ----- jobs -----

    method Enqueue(job: Job, now: Time) returns (added: bool)
      requires Valid()
      modifies this`jobs, this`log
      ensures Valid() && log == old(log) + [Op.Enqueue(job, now)]
      ensures added <==> job.id !in old(jobs)
      ensures jobs == if added
        then old(jobs)[job.id := Row(job, now, Queued, None, None, 0, None, None, None, None)] else old(jobs)
    {
      ghost var before := jobs;
      added := job.id !in jobs;
      if added {
        jobs := jobs[job.id := Row(job, now, Queued, None, None, 0, None, None, None, None)];
      }
      Commit(Op.Enqueue(job, now), before);
    }

    /** UPDATE ... SET state = 'queued' over every lapsed row that has dispatches left. */
    method RequeueLapsed(cap: int, now: Time)
      modifies this`jobs
      ensures jobs == map id | id in old(jobs) :: RequeueRow(old(jobs)[id], cap, now)
    {
      var todo := jobs.Keys;
      ghost var before := jobs;
      while todo != {}
        invariant todo <= before.Keys && jobs.Keys == before.Keys
        invariant forall id | id in todo :: jobs[id] == before[id]
        invariant forall id | id in before && id !in todo :: jobs[id] == RequeueRow(before[id], cap, now)
        decreases |todo|
      {
        var id :| id in todo;
        var r := jobs[id];
        if (r.state == Claimed || r.state == Running) && r.lease.Some? && r.lease.value < now && r.attempts < cap {
          jobs := jobs[id := r.(state := Queued, holder := None, lease := None)];
        }
        todo := todo - {id};
      }
    }

    /** UPDATE ... SET state = 'abandoned' over every lapsed row that has none left. */
    method AbandonLapsed(cap: int, now: Time)
      modifies this`jobs
      ensures jobs == map id | id in old(jobs) :: AbandonRow(old(jobs)[id], cap, now)
    {
      var todo := jobs.Keys;
      ghost var before := jobs;
      while todo != {}
        invariant todo <= before.Keys && jobs.Keys == before.Keys
        invariant forall id | id in todo :: jobs[id] == before[id]
        invariant forall id | id in before && id !in todo :: jobs[id] == AbandonRow(before[id], cap, now)
        decreases |todo|
      {
        var id :| id in todo;
        var r := jobs[id];
        if (r.state == Claimed || r.state == Running) && r.lease.Some? && r.lease.value < now && r.attempts >= cap {
          jobs := jobs[id := r.(state := Abandoned, lease := None, summary := Some(OUT_OF_ATTEMPTS))];
        }
        todo := todo - {id};
      }
    }

    /** The two statements together are one reap: no row is touched by both. */
    method ReapBoth(cap: int, now: Time)
      modifies this`jobs
      ensures jobs == Reaped(old(jobs), cap, now)
    {
      RequeueLapsed(cap, now);
      AbandonLapsed(cap, now);
      assert jobs.Keys == old(jobs).Keys;
    }

    method Reap(cap: int, now: Time)
      requires Valid()
      modifies this`jobs, this`log
      ensures Valid() && log == old(log) + [Op.Reap(cap, now)]
      ensures jobs == Reaped(old(jobs), cap, now)
      ensures jobs.Keys == old(jobs).Keys && forall id | id in old(jobs) :: ReapedRow(old(jobs)[id], jobs[id], cap, now)
    {
      ghost var before := jobs;
      ReapBoth(cap, now);
      assert jobs == Apply(before, Op.Reap(cap, now));
      Commit(Op.Reap(cap, now), before);
    }

    /** The ordered select: every queued row is placed after the rows no younger than it. */
    method SelectQueued() returns (rows: seq<Row>)
      requires Keyed(jobs)
      ensures QueuedInOrder(jobs, rows)
    {
      hide InState;
      rows := [];
      var todo := jobs.Keys;
      ghost var seen: set<JobId> := {};
      while todo != {}
        invariant todo <= jobs.Keys && |rows| == |seen| && seen <= jobs.Keys - todo
        invariant forall id | id in jobs && id !in todo :: id in seen <==> jobs[id].state == Queued
        invariant forall r | r in rows :: RowIn(jobs, r) && r.state == Queued
        invariant forall id | id in jobs && id !in todo && jobs[id].state == Queued :: jobs[id] in rows
        invariant OrderedByAge(rows)
        decreases |todo|
      {
        var id :| id in todo;
        var r := jobs[id];
        if r.state == Queued {
          InsertByAgeMembers(rows, r);
          InsertByAgeOrder(rows, r);
          rows := InsertByAge(rows, r);
          seen := seen + {id};
        }
        todo := todo - {id};
      }
      assert seen == InState(jobs, Queued) by { SameSet(jobs, seen, Queued); }
    }

    /** UPDATE ... WHERE id = ? AND state = 'queued'; answers the row count. */
    method TakeIfQueued(id: JobId, runner: RunnerId, expires: Time) returns (rowcount: nat)
      modifies this`jobs
      ensures rowcount == if id in old(jobs) && old(jobs)[id].state == Queued then 1 else 0
      ensures jobs == if rowcount == 1 then old(jobs)[id := TakeRow(old(jobs)[id], runner, expires)] else old(jobs)
    {
      if id in jobs && jobs[id].state == Queued {
        var r := jobs[id];
        jobs := jobs[id := r.(state := Claimed, holder := Some(runner),
                              lease := Some(expires), attempts := r.attempts + 1)];
        return 1;
      }
      return 0;
    }

    /** The body of the claim transaction: reap, ordered select, conditional update. */
    method ClaimRows(runner: RunnerId, wanted: set<string>, expires: Time, cap: int, now: Time)
      returns (got: Option<Job>)
      requires Keyed(jobs)
      modifies this`jobs
      ensures PickOK(Reaped(old(jobs), cap, now), wanted, Picked(got))
      ensures got.None? ==> jobs == Reaped(old(jobs), cap, now)
      ensures got.Some? ==>
        var swept := Reaped(old(jobs), cap, now);
        var id := got.value.id;
        id in swept && got.value == swept[id].job && jobs == swept[id := TakeRow(swept[id], runner, expires)]
    {
      ReapBoth(cap, now);
      ghost var swept := jobs;
      var rows := SelectQueued();
      hide Reaped, QueuedInOrder, OldestEligible, TakeRow;
      var i := 0;
      while i < |rows|
        invariant i <= |rows| && jobs == swept
        invariant forall m | 0 <= m < i :: !Eligible(rows[m], wanted)
      {
        var row := rows[i];
        if wanted == {} || row.job.server in wanted {
          SelectedRow(swept, rows, i);
          var rowcount := TakeIfQueued(row.job.id, runner, expires);
          // The select and the update see the same table, so this is never 0.
          assert rowcount == 1;
          if rowcount == 1 {
            FirstIsOldest(swept, rows, i, wanted);
            return Some(row.job);
          }
        }
        i := i + 1;
      }
      NoneLeft(swept, rows, wanted);
      got := None;
    }

    /**
      Reaps, then hands out the oldest queued job this runner may take, or none
      exactly when there is none. Beyond the reap only that one row changes, and
      only in state, holder, lease and attempts.
    */
    method Claim(runner: RunnerId, labels: seq<string>, leaseSeconds: real, cap: int, now: Time)
      returns (got: Option<Job>)
      requires Valid()
      modifies this`jobs, this`log
      ensures Valid()
      ensures log == old(log) + [Op.Claim(runner, Wanted(labels), leaseSeconds, cap, now, Picked(got))]
      ensures PickOK(Reaped(old(jobs), cap, now), Wanted(labels), Picked(got))
      ensures got.Some? ==> MayTake(labels, got.value.server)
      ensures got.None? ==>
        var swept := Reaped(old(jobs), cap, now);
        forall id | id in swept && swept[id].state == Queued ::
          !MayTake(labels, swept[id].job.server)
      ensures got.Some? ==>
        var swept := Reaped(old(jobs), cap, now);
        && got.value.id in swept && swept[got.value.id].state == Queued
        && forall other | other in swept && swept[other].state == Queued
            && MayTake(labels, swept[other].job.server) ::
          swept[got.value.id].createdAt <= swept[other].createdAt
      ensures got.Some? ==> exists i | 0 <= i < |old(log)| :: old(log)[i].Enqueue? && old(log)[i].job == got.value
      ensures got.None? ==> jobs == Reaped(old(jobs), cap, now)
      ensures got.Some? ==>
        var swept := Reaped(old(jobs), cap, now);
        var id := got.value.id;
        id in swept && got.value == swept[id].job
        && jobs == swept[id := swept[id].(state := Claimed, holder := Some(runner),
                                          lease := Some(now + leaseSeconds), attempts := swept[id].attempts + 1)]
    {
      ghost var before := jobs;
      KeyedLog(log);
      got := ClaimRows(runner, Wanted(labels), now + leaseSeconds, cap, now);
      PickMeans(labels, Reaped(before, cap, now), got);
      if got.Some? {
        DispatchWasEnqueued(log, cap, now, got.value.id);
      }
      hide Legal, At, Reaped, Wanted, PickOK;
      ghost var op := Op.Claim(runner, Wanted(labels), leaseSeconds, cap, now, Picked(got));
      ClaimIsApply(before, op);
      Commit(op, before);
    }

    method MarkRunning(id: JobId, runner: RunnerId, now: Time) returns (ok: bool)
      requires Valid()
      modifies this`jobs, this`log
      ensures Valid() && log == old(log) + [Op.MarkRunning(id, runner, now)]
      ensures ok <==> id in old(jobs) && old(jobs)[id].state == Claimed && old(jobs)[id].holder == Some(runner)
      ensures jobs ==
        if ok then old(jobs)[id := old(jobs)[id].(state := Running, startedAt := Some(now))] else old(jobs)
    {
      ghost var before := jobs;
      ok := id in jobs && jobs[id].holder == Some(runner) && jobs[id].state == Claimed;
      if ok {
        jobs := jobs[id := jobs[id].(state := Running, startedAt := Some(now))];
      }
      assert jobs == Apply(before, Op.MarkRunning(id, runner, now));
      Commit(Op.MarkRunning(id, runner, now), before);
    }

    /** Records a result, but only from the runner that holds the job. */
    method Finish(id: JobId, runner: RunnerId, outcome: Outcome, note: string, now: Time) returns (ok: bool)
      requires Valid()
      modifies this`jobs, this`log
      ensures Valid() && log == old(log) + [Op.Finish(id, runner, outcome, note, now)]
      ensures ok <==>
        id in old(jobs) && old(jobs)[id].holder == Some(runner)
        && (old(jobs)[id].state == Claimed || old(jobs)[id].state == Running)
      ensures !ok ==> jobs == old(jobs)
      ensures ok ==> jobs == old(jobs)[id := old(jobs)[id].(
        state := if outcome.exitCode == 0 then Done else Failed, finishedAt := Some(now),
        outcome := Some(outcome), summary := Some(note), lease := None)]
    {
      ghost var before := jobs;
      var state := if outcome.exitCode == 0 then Done else Failed;
      ok := id in jobs && jobs[id].holder == Some(runner)
        && (jobs[id].state == Claimed || jobs[id].state == Running);
      if ok {
        jobs := jobs[id := jobs[id].(state := state, finishedAt := Some(now),
                                     outcome := Some(outcome), summary := Some(note), lease := None)];
      }
      assert jobs == Apply(before, Op.Finish(id, runner, outcome, note, now));
      Commit(Op.Finish(id, runner, outcome, note, now), before);
    }

    /** UPDATE ... SET lease_expires over every row the runner holds; answers the row count. */
    method RenewRows(runner: RunnerId, expires: Time) returns (renewed: nat)
      modifies this`jobs
      ensures renewed == |HeldRows(old(jobs), runner)|
      ensures jobs == map id | id in old(jobs) :: ExtendRow(old(jobs)[id], runner, expires)
    {
      var todo := jobs.Keys;
      ghost var before, seen := jobs, {};
      renewed := 0;
      while todo != {}
        invariant todo <= before.Keys && jobs.Keys == before.Keys && renewed == |seen|
        invariant forall id | id in todo :: jobs[id] == before[id] && id !in seen
        invariant forall id | id in before && id !in todo ::
          jobs[id] == ExtendRow(before[id], runner, expires) && (id in seen <==> HeldBy(before[id], runner))
        invariant seen <= before.Keys
        decreases |todo|
      {
        var id :| id in todo;
        var r := jobs[id];
        if r.holder == Some(runner) && (r.state == Claimed || r.state == Running) {
          jobs := jobs[id := r.(lease := Some(expires))];
          renewed := renewed + 1;
          seen := seen + {id};
        }
        todo := todo - {id};
      }
      assert seen == HeldRows(before, runner);
    }

    /** Extends the lease on everything the runner holds, and answers how much that was. */
    method Renew(runner: RunnerId, leaseSeconds: real, now: Time) returns (renewed: nat)
      requires Valid()
      modifies this`jobs, this`log
      ensures Valid() && log == old(log) + [Op.Renew(runner, leaseSeconds, now)]
      ensures renewed == |set id | id in old(jobs) && HeldBy(old(jobs)[id], runner)|
      ensures jobs == map id | id in old(jobs) ::
        if old(jobs)[id].state in {Claimed, Running} && old(jobs)[id].holder == Some(runner)
        then old(jobs)[id].(lease := Some(now + leaseSeconds)) else old(jobs)[id]
    {
      ghost var before := jobs;
      renewed := RenewRows(runner, now + leaseSeconds);
      hide Legal, At, HeldRows;
      assert jobs == Apply(before, Op.Renew(runner, leaseSeconds, now));
      Commit(Op.Renew(runner, leaseSeconds, now), before);
    }

    /** SELECT state, COUNT(*) ... GROUP BY state: only the states that occur, and how often. */
    method Counts() returns (n: map<State, nat>)
      ensures forall s :: s in n <==> InState(jobs, s) != {}
      ensures forall s | s in n :: n[s] == |InState(jobs, s)|
    {
      n := map[];
      var todo := jobs.Keys;
      ghost var seen: Table := map[];
      while todo != {}
        invariant todo <= jobs.Keys && seen == map id | id in jobs && id !in todo :: jobs[id]
        invariant forall s :: s in n <==> InState(seen, s) != {}
        invariant forall s | s in n :: n[s] == |InState(seen, s)|
        decreases |todo|
      {
        var id :| id in todo;
        var s := jobs[id].state;
        CountOneMore(seen, id, jobs[id]);
        n := n[s := if s in n then n[s] + 1 else 1];
        seen := seen[id := jobs[id]];
        todo := todo - {id};
      }
      assert seen == jobs;
    }

    // ----- runners -----

    /** INSERT ... ON CONFLICT DO UPDATE: on its own this replaces the key of a known runner. */
    method Enrol(runner: RunnerId, publicKey: string, labels: seq<string>, now: Time)
      modifies this`runners
      ensures runners == old(runners)[runner := RunnerRow(
        publicKey, Stored(labels),
        if runner in old(runners) then old(runners)[runner].enrolledAt else now, now)]
    {
      var joined := Stored(labels);
      if runner in runners {
        runners := runners[runner := runners[runner].(publicKey := publicKey, labels := joined, lastSeen := now)];
      } else {
        runners := runners[runner := RunnerRow(publicKey, joined, now, now)];
      }
    }

    method Touch(runner: RunnerId, now: Time)
      modifies this`runners
      ensures runners == if runner in old(runners)
        then old(runners)[runner := old(runners)[runner].(lastSeen := now)] else old(runners)
    {
      if runner in runners {
        runners := runners[runner := runners[runner].(lastSeen := now)];
      }
    }
  }

  // ----- lemmas about the statements -----

  lemma KeyedLog(log: seq<Op>)
    requires Legal(log)
    ensures Keyed(At(log, |log|))
    ensures forall cap, now :: Keyed(Reaped(At(log, |log|), cap, now))
  {
    ReachableOK(log, |log|);
  }

  lemma SameSet(t: Table, ids: set<JobId>, s: State)
    requires ids <= t.Keys && forall id | id in t :: id in ids <==> t[id].state == s
    ensures ids == InState(t, s)
  {
  }

  function InsertByAge(rows: seq<Row>, r: Row): seq<Row> {
    if rows == [] || r.createdAt < rows[0].createdAt then [r] + rows
    else [rows[0]] + InsertByAge(rows[1..], r)
  }

  lemma {:induction false} InsertByAgeMembers(rows: seq<Row>, r: Row)
    ensures forall x :: x in InsertByAge(rows, r) <==> x in rows || x == r
    ensures |InsertByAge(rows, r)| == |rows| + 1
  {
    if !(rows == [] || r.createdAt < rows[0].createdAt) {
      InsertByAgeMembers(rows[1..], r);
      assert rows == [rows[0]] + rows[1..];
    }
  }

  lemma {:induction false} InsertByAgeOrder(rows: seq<Row>, r: Row)
    requires OrderedByAge(rows)
    ensures OrderedByAge(InsertByAge(rows, r))
  {
    if !(rows == [] || r.createdAt < rows[0].createdAt) {
      InsertByAgeOrder(rows[1..], r);
      InsertByAgeMembers(rows[1..], r);
      var tail := InsertByAge(rows[1..], r);
      forall x | x in tail ensures rows[0].createdAt <= x.createdAt {
      }
      hide InsertByAge;
      assert OrderedByAge([rows[0]] + tail);
    }
  }

  lemma SelectedRow(t: Table, rows: seq<Row>, i: nat)
    requires QueuedInOrder(t, rows) && i < |rows|
    ensures rows[i].job.id in t && t[rows[i].job.id] == rows[i] && rows[i].state == Queued
  {
    assert RowIn(t, rows[i]);
  }

  lemma FirstIsOldest(t: Table, rows: seq<Row>, i: nat, wanted: set<string>)
    requires QueuedInOrder(t, rows) && i < |rows| && Eligible(rows[i], wanted)
    requires forall m | 0 <= m < i :: !Eligible(rows[m], wanted)
    ensures OldestEligible(t, wanted, rows[i].job.id)
  {
    assert RowIn(t, rows[i]);
    forall other | other in t && Eligible(t[other], wanted) ensures rows[i].createdAt <= t[other].createdAt {
      assert t[other] in rows;
    }
  }

  lemma NoneLeft(t: Table, rows: seq<Row>, wanted: set<string>)
    requires QueuedInOrder(t, rows)
    requires forall m | 0 <= m < |rows| :: !Eligible(rows[m], wanted)
    ensures NothingEligible(t, wanted)
  {
    forall id | id in t ensures !Eligible(t[id], wanted) {
      if t[id].state == Queued {
        assert t[id] in rows;
      }
    }
  }

  /** What an answer says of the labels it was given for, their empty strings included. */
  lemma PickMeans(labels: seq<string>, swept: Table, got: Option<Job>)
    requires PickOK(swept, Wanted(labels), Picked(got))
    requires got.Some? ==> got.value.id in swept && got.value == swept[got.value.id].job
    ensures got.Some? ==> MayTake(labels, got.value.server)
    ensures got.Some? ==> swept[got.value.id].state == Queued
    ensures got.Some? ==> forall other | other in swept && swept[other].state == Queued
        && MayTake(labels, swept[other].job.server) ::
      swept[got.value.id].createdAt <= swept[other].createdAt
    ensures got.None? ==> forall id | id in swept && swept[id].state == Queued ::
      !MayTake(labels, swept[id].job.server)
  {
    var wanted := Wanted(labels);
    assert wanted == {} ==> forall x | x in labels :: x == "" by {
      forall x | x in labels && x != "" ensures x in wanted {
      }
    }
    if got.Some? {
      assert Eligible(swept[got.value.id], wanted);
      forall other | other in swept && swept[other].state == Queued
          && MayTake(labels, swept[other].job.server)
        ensures swept[got.value.id].createdAt <= swept[other].createdAt
      {
        assert Eligible(swept[other], wanted);
      }
    } else {
      forall id | id in swept && swept[id].state == Queued
        ensures !MayTake(labels, swept[id].job.server)
      {
        assert !Eligible(swept[id], wanted);
        var x :| x in wanted;
        assert x in labels && x != "";
      }
    }
  }

  lemma DispatchWasEnqueued(log: seq<Op>, cap: int, now: Time, id: JobId)
    requires id in Reaped(At(log, |log|), cap, now)
    ensures exists i | 0 <= i < |log| ::
      log[i].Enqueue? && log[i].job == Reaped(At(log, |log|), cap, now)[id].job
  {
    hide At, Apply;
    var i := RowWasEnqueued(log, |log|, id);
  }

  /** A claim is its reap followed by one taken row. */
  lemma ClaimIsApply(t: Table, op: Op)
    requires op.Claim?
    ensures var swept := Reaped(t, op.cap, op.now);
      Apply(t, op) ==
        if op.pick.Some? && op.pick.value in swept
        then swept[op.pick.value := TakeRow(swept[op.pick.value], op.runner, op.now + op.leaseSeconds)]
        else swept
  {
    hide ReapRow, TakeRow;
    var swept := Reaped(t, op.cap, op.now);
    var after := if op.pick.Some? && op.pick.value in swept
      then swept[op.pick.value := TakeRow(swept[op.pick.value], op.runner, op.now + op.leaseSeconds)]
      else swept;
    assert Apply(t, op).Keys == after.Keys;
    forall id | id in t ensures Apply(t, op)[id] == after[id] {
    }
  }

  lemma CountOneMore(t: Table, id: JobId, r: Row)
    requires id !in t
    ensures forall s :: InState(t[id := r], s) == if s == r.state then InState(t, s) + {id} else InState(t, s)
    ensures |InState(t[id := r], r.state)| == |InState(t, r.state)| + 1
  {
    forall s ensures InState(t[id := r], s) == if s == r.state then InState(t, s) + {id} else InState(t, s) {
    }
    assert id !in InState(t, r.state);
  }
}
