/**
  The store under concurrent clients, statement by statement. A claim or a reap
  reads its stamp, waits for the write lock, runs its statements on a private
  copy, and commits or rolls back; every other call is one autocommit statement,
  which also waits for the lock. Every interleaving is a run of atomic calls in
  commit order.
*/
module Transactions {
  import opened Options
  import opened Queue
  import opened Runs
  import opened Stores
  import opened Leases

  type Client = string

  /** A `claim`, or with `sweepOnly` a `reap`; the stamp is read on arrival, before the lock. */
  datatype Request = Request(
    runner: RunnerId, wanted: set<string>, leaseSeconds: real, cap: int, now: Time, sweepOnly: bool)

  /** How far the transaction that holds the lock has come. */
  datatype Pc =
    | Begun
    | Requeued
    | Swept
    | Scanning(rows: seq<Row>, next: nat)
    | Won(id: JobId)

  datatype Txn = Txn(client: Client, req: Request, pc: Pc, work: Table)

  /** `table` is the committed state; `log` lists what was committed, in commit order. */
  datatype Db = Db(table: Table, writer: Option<Txn>, waiting: map<Client, Request>, log: seq<Op>)

  datatype Step =
    | Arrive(client: Client, req: Request)
    | GiveUp(client: Client)
    | Begin(client: Client)
    | RequeueStatement
    | AbandonStatement
    | Select(rows: seq<Row>)
    | TryRow
    | Commit
    | Rollback
    | Autocommit(op: Op)

  ghost predicate Can(db: Db, step: Step) {
    match step
    case Arrive(client, _) => client !in db.waiting && (db.writer.Some? ==> db.writer.value.client != client)
    case GiveUp(client) => client in db.waiting
    case Begin(client) => client in db.waiting && db.writer.None?
    case RequeueStatement => db.writer.Some? && db.writer.value.pc.Begun?
    case AbandonStatement => db.writer.Some? && db.writer.value.pc.Requeued?
    case Select(rows) =>
      db.writer.Some? && db.writer.value.pc.Swept? && !db.writer.value.req.sweepOnly
      && QueuedInOrder(db.writer.value.work, rows)
    case TryRow =>
      db.writer.Some? && db.writer.value.pc.Scanning? && db.writer.value.pc.next < |db.writer.value.pc.rows|
    case Commit => db.writer.Some? && AtEnd(db.writer.value)
    case Rollback => db.writer.Some?
    case Autocommit(op) => db.writer.None? && !op.Claim? && !op.Reap?
  }

  /** A row won, the scan exhausted, or a sweep done. */
  predicate AtEnd(txn: Txn) {
    match txn.pc
    case Won(_) => true
    case Scanning(rows, next) => next == |rows|
    case Swept => txn.req.sweepOnly
    case _ => false
  }

  function CommittedOp(txn: Txn): Op {
    var req := txn.req;
    if txn.pc.Won? then Claim(req.runner, req.wanted, req.leaseSeconds, req.cap, req.now, Some(txn.pc.id))
    else if txn.pc.Scanning? then Claim(req.runner, req.wanted, req.leaseSeconds, req.cap, req.now, None)
    else Reap(req.cap, req.now)
  }

  /** The next row of the scan: skipped, or updated if it is still queued in the table at hand. */
  function Tried(txn: Txn): Txn
    requires txn.pc.Scanning? && txn.pc.next < |txn.pc.rows|
  {
    var row := txn.pc.rows[txn.pc.next];
    var id := row.job.id;
    if txn.req.wanted != {} && row.job.server !in txn.req.wanted then txn.(pc := Scanning(txn.pc.rows, txn.pc.next + 1))
    else if id in txn.work && txn.work[id].state == Queued then
      var taken := TakeRow(txn.work[id], txn.req.runner, txn.req.now + txn.req.leaseSeconds);
      txn.(pc := Won(id), work := txn.work[id := taken])
    else txn.(pc := Scanning(txn.pc.rows, txn.pc.next + 1))
  }

  ghost function Do(db: Db, step: Step): Db
    requires Can(db, step)
  {
    match step
    case Arrive(client, req) => db.(waiting := db.waiting[client := req])
    case GiveUp(client) => db.(waiting := db.waiting - {client})
    case Begin(client) =>
      db.(waiting := db.waiting - {client}, writer := Some(Txn(client, db.waiting[client], Begun, db.table)))
    case RequeueStatement =>
      var txn := db.writer.value;
      db.(writer := Some(txn.(pc := Requeued,
        work := map id | id in txn.work :: RequeueRow(txn.work[id], txn.req.cap, txn.req.now))))
    case AbandonStatement =>
      var txn := db.writer.value;
      db.(writer := Some(txn.(pc := Swept,
        work := map id | id in txn.work :: AbandonRow(txn.work[id], txn.req.cap, txn.req.now))))
    case Select(rows) => db.(writer := Some(db.writer.value.(pc := Scanning(rows, 0))))
    case TryRow => db.(writer := Some(Tried(db.writer.value)))
    case Commit =>
      db.(table := db.writer.value.work, writer := None, log := db.log + [CommittedOp(db.writer.value)])
    case Rollback => db.(writer := None)
    case Autocommit(op) => db.(table := Apply(db.table, op), log := db.log + [op])
  }

  // ----- the invariant of every interleaving -----

  ghost predicate TxnOK(t: Table, txn: Txn) {
    var swept := Reaped(t, txn.req.cap, txn.req.now);
    match txn.pc
    case Begun => txn.work == t
    case Requeued => txn.work == map id | id in t :: RequeueRow(t[id], txn.req.cap, txn.req.now)
    case Swept => txn.work == swept
    case Scanning(rows, next) => ScanOK(swept, txn, rows, next)
    case Won(id) => WonOK(swept, txn, id)
  }

  ghost predicate ScanOK(swept: Table, txn: Txn, rows: seq<Row>, next: nat) {
    && txn.work == swept && QueuedInOrder(swept, rows) && next <= |rows|
    && forall m | 0 <= m < next :: !Eligible(rows[m], txn.req.wanted)
  }

  ghost predicate WonOK(swept: Table, txn: Txn, id: JobId) {
    && OldestEligible(swept, txn.req.wanted, id)
    && txn.work == swept[id := TakeRow(swept[id], txn.req.runner, txn.req.now + txn.req.leaseSeconds)]
  }

  /** The committed table is what the atomic machine makes of the committed calls, and each was allowed. */
  ghost predicate Refines(db: Db) {
    && Legal(db.log) && db.table == At(db.log, |db.log|)
    && (db.writer.Some? ==> TxnOK(db.table, db.writer.value))
  }

  /** Inside the lock the conditional update of an eligible row always counts one row. */
  lemma RowcountIsOne(t: Table, txn: Txn)
    requires TxnOK(t, txn) && txn.pc.Scanning? && txn.pc.next < |txn.pc.rows|
    ensures var row := txn.pc.rows[txn.pc.next];
      row.job.id in txn.work && txn.work[row.job.id] == row && row.state == Queued
    ensures Eligible(txn.pc.rows[txn.pc.next], txn.req.wanted) ==> Tried(txn).pc == Won(txn.pc.rows[txn.pc.next].job.id)
    ensures TxnOK(t, Tried(txn))
  {
    var swept := Reaped(t, txn.req.cap, txn.req.now);
    var rows, next := txn.pc.rows, txn.pc.next;
    SelectedRow(swept, rows, next);
    if Eligible(rows[next], txn.req.wanted) {
      FirstIsOldest(swept, rows, next, txn.req.wanted);
    }
    hide Reaped, QueuedInOrder, OldestEligible, TakeRow;
  }

  /** What a transaction commits is one atomic call that the queue allowed. */
  lemma CommitIsAtomic(t: Table, txn: Txn)
    requires TxnOK(t, txn) && AtEnd(txn)
    ensures Enabled(t, CommittedOp(txn)) && txn.work == Apply(t, CommittedOp(txn))
  {
    var op := CommittedOp(txn);
    if op.Claim? {
      ClaimIsApply(t, op);
      if txn.pc.Scanning? {
        NoneLeft(Reaped(t, txn.req.cap, txn.req.now), txn.pc.rows, txn.req.wanted);
      }
    }
  }

  lemma SweepIsReap(t: Table, txn: Txn)
    requires TxnOK(t, txn) && txn.pc.Requeued?
    ensures (map id | id in txn.work :: AbandonRow(txn.work[id], txn.req.cap, txn.req.now))
      == Reaped(t, txn.req.cap, txn.req.now)
  {
  }

  lemma StepRefines(db: Db, step: Step)
    requires Refines(db) && Can(db, step)
    ensures Refines(Do(db, step))
  {
    hide Legal, At, Apply, Reaped, Enabled, QueuedInOrder, OldestEligible, TakeRow, RequeueRow, AbandonRow;
    match step
    case Arrive(_, _) =>
    case GiveUp(_) =>
    case Begin(_) =>
    case RequeueStatement =>
    case AbandonStatement => SweepIsReap(db.table, db.writer.value);
    case Select(rows) =>
    case TryRow => RowcountIsOne(db.table, db.writer.value);
    case Commit =>
      CommitIsAtomic(db.table, db.writer.value);
      LegalExtends(db.log, CommittedOp(db.writer.value));
    case Rollback =>
    case Autocommit(op) =>
      NotAClaim(db.table, op);
      LegalExtends(db.log, op);
  }

  lemma NotAClaim(t: Table, op: Op)
    requires !op.Claim?
    ensures Enabled(t, op)
  {
  }

  // ----- behaviours -----

  /** Any interleaving of any number of clients, from the empty database. */
  ghost predicate Behaviour(dbs: seq<Db>, steps: seq<Step>) {
    && |dbs| == |steps| + 1 && dbs[0] == Db(map[], None, map[], [])
    && forall k | 0 <= k < |steps| :: Follows(dbs, steps, k)
  }

  ghost predicate Follows(dbs: seq<Db>, steps: seq<Step>, k: nat)
    requires k < |steps| && |dbs| == |steps| + 1
  {
    Can(dbs[k], steps[k]) && dbs[k + 1] == Do(dbs[k], steps[k])
  }

  /**
    At every moment of every interleaving, the committed table is the atomic
    machine's table after the committed calls, each allowed when it committed.
  */
  lemma {:induction false} EveryInterleavingRefines(dbs: seq<Db>, steps: seq<Step>, k: nat)
    requires Behaviour(dbs, steps) && k <= |steps|
    ensures Refines(dbs[k])
  {
    hide Do, Can, TxnOK;
    if k == 0 {
      assert Legal([]);
      hide Legal;
    } else {
      EveryInterleavingRefines(dbs, steps, k - 1);
      assert Follows(dbs, steps, k - 1);
      StepRefines(dbs[k - 1], steps[k - 1]);
    }
  }

  /** While one transaction holds the lock, nothing is committed by anyone. */
  lemma {:induction false} LockedOut(dbs: seq<Db>, steps: seq<Step>, i: nat, j: nat)
    requires Behaviour(dbs, steps) && i <= j <= |steps|
    requires forall m | i <= m < j :: dbs[m].writer.Some? && !steps[m].Commit?
    ensures dbs[j].table == dbs[i].table && dbs[j].log == dbs[i].log
  {
    hide TxnOK, Tried, CommittedOp, AtEnd, QueuedInOrder;
    if i < j {
      LockedOut(dbs, steps, i, j - 1);
      assert Follows(dbs, steps, j - 1);
    }
  }

  /** A transaction that rolls back leaves no trace, whatever ran beside it. */
  lemma RollbackLeavesNoTrace(dbs: seq<Db>, steps: seq<Step>, i: nat, j: nat)
    requires Behaviour(dbs, steps) && i < j < |steps| && steps[i].Begin? && steps[j].Rollback?
    requires forall m | i < m < j :: dbs[m].writer.Some? && !steps[m].Commit?
    ensures dbs[j + 1].table == dbs[i].table && dbs[j + 1].log == dbs[i].log
    ensures dbs[j + 1].writer == None
  {
    hide TxnOK, Tried, CommittedOp, AtEnd, QueuedInOrder;
    assert Follows(dbs, steps, i);
    assert Follows(dbs, steps, j);
    LockedOut(dbs, steps, i + 1, j);
  }

  /**
    So no job is ever handed out twice at once: between two committed claims of
    one job, whatever the interleaving, a committed call reaped it past its lease.
  */
  lemma NeverHandedOutTwice(dbs: seq<Db>, steps: seq<Step>, k: nat, first: nat, second: nat, id: JobId)
    requires Behaviour(dbs, steps) && k <= |steps|
    requires first < second < |dbs[k].log| && dbs[k].log[first].Takes(id) && dbs[k].log[second].Takes(id)
    ensures exists m | first < m <= second :: EndsTenure(dbs[k].log, m, id)
  {
    EveryInterleavingRefines(dbs, steps, k);
    hide Behaviour, Legal, Refines, TxnOK;
    TenureEndsBetween(dbs[k].log, first, second, id);
  }

  lemma {:induction false} TenureEndsBetween(log: seq<Op>, first: nat, second: nat, id: JobId)
    requires Legal(log) && first < second < |log| && log[first].Takes(id) && log[second].Takes(id)
    ensures exists m | first < m <= second :: EndsTenure(log, m, id)
    decreases second - first
  {
    hide Legal, EndsTenure, Held;
    if n :| first < n < second && log[n].Takes(id) {
      TenureEndsBetween(log, first, n, id);
    } else {
      SeparatedTenures(log, first, second, id);
    }
  }

  // ----- what is committed is what was asked for -----

  ghost predicate AskedBy(steps: seq<Step>, k: nat, client: Client, req: Request) {
    exists a | 0 <= a < k && a < |steps| :: steps[a] == Arrive(client, req)
  }

  /** Whoever waits for the lock, or holds it, does so for a request that arrived. */
  lemma {:induction false} RequestsArrived(dbs: seq<Db>, steps: seq<Step>, k: nat)
    requires Behaviour(dbs, steps) && k <= |steps|
    ensures forall client | client in dbs[k].waiting :: AskedBy(steps, k, client, dbs[k].waiting[client])
    ensures dbs[k].writer.Some? ==> AskedBy(steps, k, dbs[k].writer.value.client, dbs[k].writer.value.req)
  {
    hide QueuedInOrder, RequeueRow, AbandonRow, TakeRow, Apply, AtEnd, CommittedOp;
    if k > 0 {
      RequestsArrived(dbs, steps, k - 1);
      assert Follows(dbs, steps, k - 1);
      forall client | client in dbs[k].waiting ensures AskedBy(steps, k, client, dbs[k].waiting[client]) {
        if steps[k - 1].Arrive? && steps[k - 1].client == client {
          assert steps[k - 1] == Arrive(client, dbs[k].waiting[client]);
        } else {
          assert AskedBy(steps, k - 1, client, dbs[k - 1].waiting[client]);
        }
      }
    }
  }

  /**
    Every commit adds one call to the history: a claim as the request that
    arrived asked for it, with its runner, its labels, its lease, its cap and its
    stamp, or the sweep that it asked for.
  */
  lemma CommitIsAsAsked(dbs: seq<Db>, steps: seq<Step>, k: nat)
    requires Behaviour(dbs, steps) && k < |steps| && steps[k].Commit?
    ensures dbs[k].writer.Some? && |dbs[k + 1].log| == |dbs[k].log| + 1 && dbs[k].log <= dbs[k + 1].log
    ensures var client, req, op := dbs[k].writer.value.client, dbs[k].writer.value.req, dbs[k + 1].log[|dbs[k].log|];
      && AskedBy(steps, k, client, req)
      && (req.sweepOnly ==> op == Reap(req.cap, req.now))
      && (!req.sweepOnly ==>
        && op.Claim? && op.runner == req.runner && op.wanted == req.wanted && op.leaseSeconds == req.leaseSeconds
        && op.cap == req.cap && op.now == req.now)
  {
    RequestsArrived(dbs, steps, k);
    SweepsStaySweeps(dbs, steps, k);
    assert Follows(dbs, steps, k);
  }

  /** A sweep never comes to scan rows, and a claim does before it ends. */
  lemma {:induction false} SweepsStaySweeps(dbs: seq<Db>, steps: seq<Step>, k: nat)
    requires Behaviour(dbs, steps) && k <= |steps|
    ensures dbs[k].writer.Some? && dbs[k].writer.value.req.sweepOnly ==>
      !dbs[k].writer.value.pc.Scanning? && !dbs[k].writer.value.pc.Won?
  {
    hide QueuedInOrder, RequeueRow, AbandonRow, TakeRow, Apply, CommittedOp;
    if k > 0 {
      SweepsStaySweeps(dbs, steps, k - 1);
      assert Follows(dbs, steps, k - 1);
    }
  }

  /** And every other call is committed as it was made, at once. */
  lemma AutocommitIsAsMade(dbs: seq<Db>, steps: seq<Step>, k: nat)
    requires Behaviour(dbs, steps) && k < |steps| && steps[k].Autocommit?
    ensures dbs[k + 1].log == dbs[k].log + [steps[k].op] && dbs[k + 1].table == Apply(dbs[k].table, steps[k].op)
  {
    hide Apply;
    assert Follows(dbs, steps, k);
  }

  // ----- clocks -----

  /**
    The interleaving against a clock: a transaction's stamp is the time it
    arrived, every other stamp was read before its commit, and nothing waits and
    works longer than `skew` between its stamp and its commit.
  */
  ghost predicate Clocked(dbs: seq<Db>, steps: seq<Step>, times: seq<Time>, skew: real)
    requires |dbs| == |steps| + 1
  {
    && |times| == |steps|
    && (forall k, n | 0 <= k <= n < |steps| :: times[k] <= times[n])
    && (forall k | 0 <= k < |steps| :: OnClock(dbs[k], steps[k], times[k], skew))
  }

  predicate OnClock(db: Db, step: Step, time: Time, skew: real) {
    match step
    case Arrive(_, req) => req.now == time
    case Autocommit(op) => time - skew <= op.now <= time
    case Commit => db.writer.Some? ==> time - skew <= db.writer.value.req.now
    case _ => true
  }

  /** When the calls of the log were committed. */
  function CommitTimes(steps: seq<Step>, times: seq<Time>, k: nat): seq<Time>
    requires |times| == |steps| && k <= |steps|
  {
    if k == 0 then []
    else if steps[k - 1].Commit? || steps[k - 1].Autocommit? then CommitTimes(steps, times, k - 1) + [times[k - 1]]
    else CommitTimes(steps, times, k - 1)
  }

  /** Every stamp waiting or at work was read no later than `time`. */
  ghost predicate StampsRead(db: Db, time: Time) {
    && (forall client | client in db.waiting :: db.waiting[client].now <= time)
    && (db.writer.Some? ==> db.writer.value.req.now <= time)
  }

  lemma StampsStayRead(db: Db, step: Step, before: Time, time: Time, skew: real)
    requires Can(db, step) && StampsRead(db, before) && before <= time && OnClock(db, step, time, skew)
    ensures StampsRead(Do(db, step), time)
  {
    hide QueuedInOrder, RequeueRow, AbandonRow, Apply, CommittedOp, AtEnd;
  }

  ghost predicate TimedSoFar(db: Db, commits: seq<Time>, skew: real, time: Time) {
    && Timed(db.log, commits, skew) && StampsRead(db, time)
    && forall k | 0 <= k < |commits| :: commits[k] <= time
  }

  lemma TimedExtends(ops: seq<Op>, commits: seq<Time>, skew: real, op: Op, time: Time)
    requires Timed(ops, commits, skew) && time - skew <= op.now <= time
    requires forall k | 0 <= k < |commits| :: commits[k] <= time
    ensures Timed(ops + [op], commits + [time], skew)
  {
  }

  lemma StepTimed(db: Db, step: Step, commits: seq<Time>, skew: real, before: Time, time: Time)
    requires Can(db, step) && TimedSoFar(db, commits, skew, before) && before <= time
    requires OnClock(db, step, time, skew)
    ensures TimedSoFar(Do(db, step),
                       if step.Commit? || step.Autocommit? then commits + [time] else commits, skew, time)
  {
    StampsStayRead(db, step, before, time, skew);
    hide Timed, QueuedInOrder, RequeueRow, AbandonRow, Apply, TakeRow, StampsRead;
    if step.Commit? {
      assert db.writer.value.req.now <= before by { StampOfWriter(db, before); }
      TimedExtends(db.log, commits, skew, CommittedOp(db.writer.value), time);
    } else if step.Autocommit? {
      TimedExtends(db.log, commits, skew, step.op, time);
    }
  }

  lemma StampOfWriter(db: Db, time: Time)
    requires StampsRead(db, time) && db.writer.Some?
    ensures db.writer.value.req.now <= time
  {
  }

  /**
    Whatever the interleaving, the committed run is timed with that skew, though
    its stamps may be out of order. So lease safety holds of every interleaving
    in which nobody waits for the lock and works longer than `skew`.
  */
  lemma {:induction false} InterleavingIsTimed(dbs: seq<Db>, steps: seq<Step>, times: seq<Time>, skew: real, k: nat)
    requires Behaviour(dbs, steps) && Clocked(dbs, steps, times, skew) && 0 < k <= |steps|
    ensures TimedSoFar(dbs[k], CommitTimes(steps, times, k), skew, times[k - 1])
  {
    hide Do, Can, TimedSoFar, OnClock;
    assert Follows(dbs, steps, k - 1);
    assert OnClock(dbs[k - 1], steps[k - 1], times[k - 1], skew);
    if k == 1 {
      assert CommitTimes(steps, times, 0) == [];
      NothingYet(dbs[0], skew, times[0]);
      StepTimed(dbs[0], steps[0], [], skew, times[0], times[0]);
    } else {
      InterleavingIsTimed(dbs, steps, times, skew, k - 1);
      StepTimed(dbs[k - 1], steps[k - 1], CommitTimes(steps, times, k - 1), skew, times[k - 2], times[k - 1]);
    }
  }

  lemma NothingYet(db: Db, skew: real, time: Time)
    requires db == Db(map[], None, map[], [])
    ensures TimedSoFar(db, [], skew, time)
  {
  }

  /** Lease safety, end to end: over statements, locks and clocks. The two lengths always agree, as is ensured first. */
  lemma LeaseSafetyInterleaved(dbs: seq<Db>, steps: seq<Step>, times: seq<Time>, skew: real, k: nat,
                               i: nat, h: nat, id: JobId, leaseSeconds: real)
    requires Behaviour(dbs, steps) && Clocked(dbs, steps, times, skew) && 0 < k <= |steps|
    requires i < h < |dbs[k].log| && dbs[k].log[i].Takes(id)
    requires SameLease(dbs[k].log, i, h + 1, dbs[k].log[i].runner, leaseSeconds)
    requires |CommitTimes(steps, times, k)| == |dbs[k].log|
      ==> Beating(dbs[k].log, CommitTimes(steps, times, k), i, h, dbs[k].log[i].runner, leaseSeconds - skew)
    ensures |CommitTimes(steps, times, k)| == |dbs[k].log|
    ensures forall m | i < m <= h + 1 :: Kept(dbs[k].log, i, m, id)
  {
    InterleavingIsTimed(dbs, steps, times, skew, k);
    EveryInterleavingRefines(dbs, steps, k);
    hide Behaviour, Clocked, Legal, TxnOK, Beating, SameLease, Kept;
    LeaseSafety(dbs[k].log, CommitTimes(steps, times, k), skew, i, h, id, leaseSeconds);
  }

  /** Lost heartbeats, end to end: a heartbeat that was not lost is a renew committed somewhere in the interleaving. */
  lemma LostHeartbeatsInterleaved(dbs: seq<Db>, steps: seq<Step>, times: seq<Time>, skew: real, k: nat,
                                  i: nat, h: nat, id: JobId, leaseSeconds: real,
                                  beats: seq<Beat>, interval: real, timeout: real, lost: nat)
    requires Behaviour(dbs, steps) && Clocked(dbs, steps, times, skew) && 0 < k <= |steps|
    requires i < h < |dbs[k].log| && dbs[k].log[i].Takes(id)
    requires SameLease(dbs[k].log, i, h + 1, dbs[k].log[i].runner, leaseSeconds)
    requires AtMostLost(beats, lost) && WorstGap(interval, timeout, lost) + skew <= leaseSeconds
    requires var commits := CommitTimes(steps, times, k);
      |commits| == |dbs[k].log| ==>
        && Delivered(dbs[k].log, commits, dbs[k].log[i].runner, beats)
        && Loop(beats, interval, timeout, commits[i], commits[h])
    ensures |CommitTimes(steps, times, k)| == |dbs[k].log|
    ensures forall m | i < m <= h + 1 :: Kept(dbs[k].log, i, m, id)
  {
    InterleavingIsTimed(dbs, steps, times, skew, k);
    EveryInterleavingRefines(dbs, steps, k);
    hide Behaviour, Clocked, Legal, TxnOK, SameLease, Kept, Delivered, Loop, AtMostLost, WorstGap;
    LostHeartbeatsHarmless(dbs[k].log, CommitTimes(steps, times, k), skew, i, h, id, leaseSeconds,
                           beats, interval, timeout, lost);
  }
}
