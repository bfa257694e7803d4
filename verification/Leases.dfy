/**
  What a lease protects and when it stops protecting: recovery of a silent
  holder's job, and safety of a holder whose lease writes commit often enough,
  with stamps that may lag behind the commit they belong to.
*/
module Leases {
  import opened Options
  import opened Queue
  import opened Runs

  // ----- recovery -----

  /** The two calls by which a holder keeps or closes its job. */
  predicate Speaks(op: Op, id: JobId, runner: RunnerId) {
    (op.Renew? && op.runner == runner) || (op.Finish? && op.id == id && op.runner == runner)
  }

  /** From `i` up to `m` the holder is silent and nobody reaps with a stamp past `e`. */
  ghost predicate Silent(ops: seq<Op>, i: nat, m: nat, id: JobId, runner: RunnerId, e: Time)
    requires m <= |ops|
  {
    forall n | i <= n < m :: !Speaks(ops[n], id, runner) && (ops[n].Reaps() ==> ops[n].now <= e)
  }

  predicate Out(r: Row, runner: RunnerId, e: Time) {
    HeldBy(r, runner) && r.lease == Some(e)
  }

  lemma {:induction false} LeaseStands(ops: seq<Op>, i: nat, m: nat, id: JobId, runner: RunnerId, e: Time)
    requires Legal(ops) && i <= m <= |ops| && id in At(ops, i) && Out(At(ops, i)[id], runner, e)
    requires Silent(ops, i, m, id, runner, e)
    ensures id in At(ops, m) && Out(At(ops, m)[id], runner, e)
    ensures At(ops, m)[id].attempts == At(ops, i)[id].attempts
  {
    hide Apply, Legal;
    if i < m {
      LeaseStands(ops, i, m - 1, id, runner, e);
      StepAt(ops, m - 1, id);
    }
  }

  /**
    A job whose holder stays silent after its lease value `e` was written is
    taken from it by the first reaping call stamped above `e`, and by nothing
    else: below the cap it is queued again or goes straight to the caller, at
    the cap it is abandoned.
  */
  lemma Recovery(ops: seq<Op>, i: nat, m: nat, id: JobId, runner: RunnerId, e: Time)
    requires Legal(ops) && i <= m < |ops| && id in At(ops, i) && Out(At(ops, i)[id], runner, e)
    requires Silent(ops, i, m, id, runner, e) && !Speaks(ops[m], id, runner)
    ensures id in At(ops, m) && Out(At(ops, m)[id], runner, e) && id in At(ops, m + 1)
    ensures !Continues(At(ops, m)[id], At(ops, m + 1)[id]) <==> ops[m].Reaps() && e < ops[m].now
    ensures var r, s := At(ops, i)[id], At(ops, m + 1)[id];
      ops[m].Reaps() && e < ops[m].now ==>
        if r.attempts >= ops[m].cap then
          s.state == Abandoned && s.holder == Some(runner) && s.finishedAt == None
          && s.summary == Some("lease expired and out of attempts")
        else if ops[m].Takes(id) then HeldBy(s, ops[m].runner) && s.attempts == r.attempts + 1
        else s.state == Queued && s.holder == None && s.attempts == r.attempts
  {
    hide Apply, Legal;
    LeaseStands(ops, i, m, id, runner, e);
    ReachableOK(ops, m);
    StepAt(ops, m, id);
  }

  // ----- safety under skew -----

  /**
    `commits[k]` is the time call `k` took effect. Its stamp was read before the
    write lock was granted, so it lags the commit by up to `skew`, and stamps
    need not come in commit order.
  */
  ghost predicate Timed(ops: seq<Op>, commits: seq<Time>, skew: real) {
    && |commits| == |ops|
    && (forall k | 0 <= k < |ops| :: commits[k] - skew <= ops[k].now <= commits[k])
    && (forall k, n | 0 <= k <= n < |ops| :: commits[k] <= commits[n])
  }

  predicate Renews(op: Op, runner: RunnerId) { op.Renew? && op.runner == runner }

  /** Before call `m`, the last call that wrote this holder's lease: the claim at `i` or a later renew. */
  function LastWrite(ops: seq<Op>, i: nat, m: nat, runner: RunnerId): (w: nat)
    requires i < m <= |ops|
    ensures i <= w < m && (w == i || Renews(ops[w], runner))
    ensures forall n | w < n < m :: !Renews(ops[n], runner)
  {
    if m - 1 == i || Renews(ops[m - 1], runner) then m - 1 else LastWrite(ops, i, m - 1, runner)
  }

  /** The lease writes of the holder commit at gaps of at most `gap`, up to and including call `h`. */
  ghost predicate Beating(ops: seq<Op>, commits: seq<Time>, i: nat, h: nat, runner: RunnerId, gap: real)
    requires |commits| == |ops| && h < |ops|
  {
    forall m | i < m <= h && (m == h || Renews(ops[m], runner)) :: GapAt(ops, commits, i, m, runner, gap)
  }

  predicate GapAt(ops: seq<Op>, commits: seq<Time>, i: nat, m: nat, runner: RunnerId, gap: real)
    requires |commits| == |ops| && i < m < |ops|
  {
    commits[m] - commits[LastWrite(ops, i, m, runner)] <= gap
  }

  lemma {:induction false} GapEverywhere(ops: seq<Op>, commits: seq<Time>, skew: real,
                                         i: nat, m: nat, h: nat, runner: RunnerId, gap: real)
    requires Timed(ops, commits, skew) && i < m <= h < |ops| && Beating(ops, commits, i, h, runner, gap)
    ensures GapAt(ops, commits, i, m, runner, gap)
    decreases h - m
  {
    if m == h || Renews(ops[m], runner) {
      assert GapAt(ops, commits, i, m, runner, gap);
    } else {
      GapEverywhere(ops, commits, skew, i, m + 1, h, runner, gap);
      assert commits[m] <= commits[m + 1];
    }
  }

  ghost predicate SameLease(ops: seq<Op>, i: nat, h: nat, runner: RunnerId, leaseSeconds: real)
    requires h <= |ops|
  {
    forall n | i <= n < h && (n == i || Renews(ops[n], runner)) :: LeaseOf(ops[n]) == leaseSeconds
  }

  function LeaseOf(op: Op): real {
    if op.Claim? || op.Renew? then op.leaseSeconds else 0.0
  }

  /** Still the tenure that began at `i`: never requeued, abandoned or handed to anyone since. */
  ghost predicate Kept(ops: seq<Op>, i: nat, m: nat, id: JobId)
    requires i < m <= |ops| && ops[i].Takes(id)
  {
    && id in At(ops, m) && id in At(ops, i + 1)
    && var r := At(ops, m)[id];
      (r.state.Active() || r.state.Finished()) && r.holder == Some(ops[i].runner)
      && r.attempts == At(ops, i + 1)[id].attempts
  }

  /** What the holder's lease column says right before call `m`, unless it has posted its result. */
  ghost predicate KeptWithLease(ops: seq<Op>, i: nat, m: nat, id: JobId, leaseSeconds: real)
    requires i < m <= |ops| && ops[i].Takes(id)
  {
    Kept(ops, i, m, id)
    && (At(ops, m)[id].state.Active() ==>
      At(ops, m)[id].lease == Some(ops[LastWrite(ops, i, m, ops[i].runner)].now + leaseSeconds))
  }

  lemma KeptAtFirst(ops: seq<Op>, i: nat, id: JobId)
    requires Legal(ops) && i < |ops| && ops[i].Takes(id)
    ensures KeptWithLease(ops, i, i + 1, id, ops[i].leaseSeconds)
  {
    hide Apply, Legal;
    StepAt(ops, i, id);
  }

  /** One row under one call that does not find its lease lapsed. */
  lemma RowKept(id: JobId, r: Row, op: Op, runner: RunnerId)
    requires RowOK(id, r) && r.holder == Some(runner) && (r.state.Active() || r.state.Finished())
    requires op.Reaps() ==> !Lapsed(r, op.now)
    requires op.Takes(id) ==> ReapRow(r, op.cap, op.now).state == Queued
    ensures var s := RowStep(id, r, op);
      && s.holder == r.holder && s.attempts == r.attempts && (s.state.Active() || s.state.Finished())
      && (s.state.Active() ==>
        r.state.Active() && s.lease == if Renews(op, runner) then Some(op.now + op.leaseSeconds) else r.lease)
  {
  }

  lemma {:induction false} KeptWhile(ops: seq<Op>, commits: seq<Time>, skew: real,
                                     i: nat, m: nat, h: nat, id: JobId, leaseSeconds: real)
    requires Legal(ops) && Timed(ops, commits, skew) && i < m <= h + 1 <= |ops| && ops[i].Takes(id)
    requires SameLease(ops, i, h + 1, ops[i].runner, leaseSeconds)
    requires Beating(ops, commits, i, h, ops[i].runner, leaseSeconds - skew)
    ensures KeptWithLease(ops, i, m, id, leaseSeconds)
  {
    hide Apply, Legal, RowStep, Beating;
    KeptAtFirst(ops, i, id);
    assert LeaseOf(ops[i]) == leaseSeconds;
    if m > i + 1 {
      KeptWhile(ops, commits, skew, i, m - 1, h, id, leaseSeconds);
      GapEverywhere(ops, commits, skew, i, m - 1, h, ops[i].runner, leaseSeconds - skew);
      ReachableOK(ops, m - 1);
      StepAt(ops, m - 1, id);
      var w := LastWrite(ops, i, m - 1, ops[i].runner);
      assert commits[w] - skew <= ops[w].now && ops[m - 1].now <= commits[m - 1];
      RowKept(id, At(ops, m - 1)[id], ops[m - 1], ops[i].runner);
      assert Renews(ops[m - 1], ops[i].runner) ==> LeaseOf(ops[m - 1]) == leaseSeconds;
    }
  }

  /**
    The lease of a job that is out is what was last written: the stamp and the
    lease of its latest claim, or of its holder's latest heartbeat since.
  */
  lemma {:induction false} LeaseIsLastWrite(ops: seq<Op>, k: nat, id: JobId)
    requires Legal(ops) && k <= |ops| && id in At(ops, k) && At(ops, k)[id].state.Active()
    ensures LastClaim(ops, k, id) >= 0
    ensures var i := LastClaim(ops, k, id);
      var w := LastWrite(ops, i, k, ops[i].runner);
      At(ops, k)[id].lease == Some(ops[w].now + LeaseOf(ops[w]))
  {
    hide Apply, Enabled, RowStep, Legal, Held;
    HolderIsLastClaimer(ops, k, id);
    StepAt(ops, k - 1, id);
    if id !in At(ops, k - 1) {
      FreshRow(ops, k - 1, id);
      assert false;
    }
    ReachableOK(ops, k - 1);
    LeaseColumn(id, At(ops, k - 1)[id], ops[k - 1]);
    if !ops[k - 1].Takes(id) {
      LeaseIsLastWrite(ops, k - 1, id);
      HolderIsLastClaimer(ops, k - 1, id);
    }
  }

  lemma LeaseColumn(id: JobId, r: Row, op: Op)
    requires RowOK(id, r) && RowStep(id, r, op).state.Active()
    requires op.Takes(id) ==> ReapRow(r, op.cap, op.now).state == Queued
    ensures var s := RowStep(id, r, op);
      if op.Takes(id) then s.lease == Some(op.now + op.leaseSeconds)
      else
        && r.state.Active() && s.holder == r.holder
        && s.lease == (if op.Renew? && r.holder == Some(op.runner) then Some(op.now + op.leaseSeconds) else r.lease)
  {
  }

  /**
    Lease safety. If stamps lag commits by at most `skew`, and the holder's lease
    writes commit at gaps of at most lease - skew up to call `h`, then through
    call `h` the job is never requeued, abandoned or handed to anyone else: it is
    out to this holder, or closed by this holder's own result.
  */
  lemma LeaseSafety(ops: seq<Op>, commits: seq<Time>, skew: real,
                    i: nat, h: nat, id: JobId, leaseSeconds: real)
    requires Legal(ops) && Timed(ops, commits, skew) && i < h < |ops| && ops[i].Takes(id)
    requires SameLease(ops, i, h + 1, ops[i].runner, leaseSeconds)
    requires Beating(ops, commits, i, h, ops[i].runner, leaseSeconds - skew)
    ensures forall m | i < m <= h + 1 :: Kept(ops, i, m, id)
  {
    forall m | i < m <= h + 1 ensures Kept(ops, i, m, id) {
      KeptWhile(ops, commits, skew, i, m, h, id, leaseSeconds);
    }
  }

  // ----- the bound is exact -----

  /** A claim stamped `skew` before its commit, no heartbeat, and a reap committed `late` after the safe gap. */
  function LateRun(job: Job, leaseSeconds: real, skew: real, late: real, cap: int): seq<Op> {
    [ Enqueue(job, 0.0),
      Claim("r", {}, leaseSeconds, cap, 0.0 - skew, Some(job.id)),
      Reap(cap, leaseSeconds - skew + late) ]
  }

  /** Any gap above lease - skew, by however little, can cost a live holder its job. */
  lemma LeaseSafetyIsTight(job: Job, leaseSeconds: real, skew: real, late: real, cap: int)
    requires 0.0 <= skew && 0.0 < late && 0.0 <= leaseSeconds - skew + late
    ensures var ops := LateRun(job, leaseSeconds, skew, late, cap);
      var commits := [0.0, 0.0, leaseSeconds - skew + late];
      && Legal(ops) && Timed(ops, commits, skew)
      && commits[2] - commits[1] == leaseSeconds - skew + late
      && EndsTenure(ops, 2, job.id)
  {
    var ops := LateRun(job, leaseSeconds, skew, late, cap);
    assert At(ops, 0) == map[];
    assert At(ops, 1) == map[job.id := NewRow(job, 0.0)];
    assert Reaped(At(ops, 1), cap, ops[1].now) == At(ops, 1);
    assert At(ops, 2) == map[job.id := TakeRow(NewRow(job, 0.0), "r", leaseSeconds - skew)];
    forall k | 0 <= k < |ops| ensures LegalAt(ops, k) {
      assert k == 0 || k == 1 || k == 2;
    }
  }

  // ----- lost heartbeats -----

  /** One turn of the heartbeat thread: when it called, how long the call blocked, and what it became unless lost. */
  datatype Beat = Beat(sent: Time, took: real, call: Option<nat>)

  /**
    The loop of the thread: wait `interval`, call, which blocks for at most
    `timeout`, and wait again. It was running at `from` and still runs at `until`.
  */
  ghost predicate Loop(beats: seq<Beat>, interval: real, timeout: real, from: Time, until: Time) {
    && |beats| > 0 && 0.0 <= interval && 0.0 <= timeout
    && beats[0].sent <= from + interval
    && until <= beats[|beats| - 1].sent + beats[|beats| - 1].took + interval
    && (forall j | 0 <= j < |beats| :: Blocks(beats[j], timeout))
    && (forall j | 0 < j < |beats| :: NextTurn(beats, j, interval))
  }

  predicate Blocks(beat: Beat, timeout: real) { 0.0 <= beat.took <= timeout }

  predicate NextTurn(beats: seq<Beat>, j: nat, interval: real)
    requires 0 < j < |beats|
  {
    beats[j].sent == beats[j - 1].sent + beats[j - 1].took + interval
  }

  /** A heartbeat that was not lost is a renew committed while the call was out. */
  ghost predicate Delivered(ops: seq<Op>, commits: seq<Time>, runner: RunnerId, beats: seq<Beat>)
    requires |commits| == |ops|
  {
    forall j | 0 <= j < |beats| && beats[j].call.Some? ::
      && beats[j].call.value < |ops| && Renews(ops[beats[j].call.value], runner)
      && beats[j].sent <= commits[beats[j].call.value] <= beats[j].sent + beats[j].took
  }

  /** At most `lost` heartbeats in a row go missing. */
  ghost predicate AtMostLost(beats: seq<Beat>, lost: nat) {
    forall j: nat | j + lost < |beats| :: OneArrives(beats, j, lost)
  }

  ghost predicate OneArrives(beats: seq<Beat>, j: nat, lost: nat)
    requires j + lost < |beats|
  {
    exists e: nat :: j <= e <= j + lost && beats[e].call.Some?
  }

  /** What `k` turns of the loop take when every call blocks to the end. */
  function Turns(k: nat, interval: real, timeout: real): real { k as real * (interval + timeout) }

  /** The longest time without a lease write when up to `lost` calls in a row are lost. */
  function WorstGap(interval: real, timeout: real, lost: nat): real {
    Turns(lost + 1, interval, timeout) + timeout
  }

  lemma OneMoreTurn(k: nat, interval: real, timeout: real)
    ensures Turns(0, interval, timeout) == 0.0
    ensures Turns(k + 1, interval, timeout) == Turns(k, interval, timeout) + interval + timeout
  {
  }

  lemma MoreTurns(k: nat, n: nat, interval: real, timeout: real)
    requires k <= n && 0.0 <= interval && 0.0 <= timeout
    ensures 0.0 <= Turns(k, interval, timeout) <= Turns(n, interval, timeout)
  {
    var period := interval + timeout;
    assert (n - k) as real * period >= 0.0;
    assert n as real * period == (n - k) as real * period + k as real * period;
  }

  /** A turn at most `k` turns later comes at most `k` full turns later. */
  lemma {:induction false} Spread(beats: seq<Beat>, interval: real, timeout: real, from: Time, until: Time,
                                  d: nat, j: nat, k: nat)
    requires Loop(beats, interval, timeout, from, until) && d <= j < |beats| && j <= d + k
    ensures beats[d].sent <= beats[j].sent <= beats[d].sent + Turns(k, interval, timeout)
  {
    if d < j {
      Spread(beats, interval, timeout, from, until, d, j - 1, k - 1);
      assert NextTurn(beats, j, interval) && Blocks(beats[j - 1], timeout);
      OneMoreTurn(k - 1, interval, timeout);
    } else {
      MoreTurns(0, k, interval, timeout);
    }
  }

  /** The first turn after time `x`, which comes within one wait and one blocked call. */
  lemma FirstTurnAfter(beats: seq<Beat>, interval: real, timeout: real, from: Time, until: Time, x: Time)
    returns (j: nat)
    requires Loop(beats, interval, timeout, from, until) && from <= x && x + interval + timeout < until
    ensures j < |beats| && x < beats[j].sent <= x + interval + timeout
  {
    j := 0;
    while j < |beats| && beats[j].sent <= x
      invariant j <= |beats| && (j > 0 ==> beats[j - 1].sent <= x)
    {
      j := j + 1;
    }
    assert j > 0 ==> Blocks(beats[j - 1], timeout);
    assert 0 < j < |beats| ==> NextTurn(beats, j, interval);
  }

  /** A loop still running more than `k` full turns after a turn has taken `k` more turns. */
  lemma RunsOn(beats: seq<Beat>, interval: real, timeout: real, from: Time, until: Time, j: nat, k: nat)
    requires Loop(beats, interval, timeout, from, until) && j < |beats|
    requires beats[j].sent + Turns(k, interval, timeout) < until
    ensures j + k < |beats|
  {
    hide Turns;
    var last := |beats| - 1;
    assert Blocks(beats[last], timeout);
    if j + k > last {
      OneMoreTurn(k - 1, interval, timeout);
      Spread(beats, interval, timeout, from, until, j, last, k - 1);
    }
  }

  /** Within the worst gap after time `x` a heartbeat is sent and arrives. */
  lemma ArrivesAfter(beats: seq<Beat>, interval: real, timeout: real, from: Time, until: Time, lost: nat, x: Time)
    returns (e: nat)
    requires Loop(beats, interval, timeout, from, until) && AtMostLost(beats, lost)
    requires from <= x && x + WorstGap(interval, timeout, lost) < until
    ensures e < |beats| && beats[e].call.Some? && x < beats[e].sent
    ensures beats[e].sent + beats[e].took <= x + WorstGap(interval, timeout, lost)
  {
    hide Turns;
    OneMoreTurn(lost, interval, timeout);
    MoreTurns(0, lost, interval, timeout);
    var j := FirstTurnAfter(beats, interval, timeout, from, until, x);
    RunsOn(beats, interval, timeout, from, until, j, lost);
    assert OneArrives(beats, j, lost);
    e :| j <= e <= j + lost && beats[e].call.Some?;
    Spread(beats, interval, timeout, from, until, j, e, lost);
    assert Blocks(beats[e], timeout);
  }

  lemma LostBeatsGap(ops: seq<Op>, commits: seq<Time>, skew: real, i: nat, m: nat, h: nat,
                     runner: RunnerId, beats: seq<Beat>, interval: real, timeout: real, lost: nat)
    requires Timed(ops, commits, skew) && i < m <= h < |ops| && Delivered(ops, commits, runner, beats)
    requires Loop(beats, interval, timeout, commits[i], commits[h]) && AtMostLost(beats, lost)
    ensures GapAt(ops, commits, i, m, runner, WorstGap(interval, timeout, lost))
  {
    var w := LastWrite(ops, i, m, runner);
    assert commits[i] <= commits[w] && commits[m] <= commits[h];
    if commits[m] - commits[w] > WorstGap(interval, timeout, lost) {
      var e := ArrivesAfter(beats, interval, timeout, commits[i], commits[h], lost, commits[w]);
      assert false;
    }
  }

  /**
    Losing up to `lost` heartbeats in a row is harmless whenever the worst gap
    they leave, plus the skew, fits into the lease.
  */
  lemma LostHeartbeatsHarmless(ops: seq<Op>, commits: seq<Time>, skew: real, i: nat, h: nat, id: JobId,
                               leaseSeconds: real, beats: seq<Beat>, interval: real, timeout: real, lost: nat)
    requires Legal(ops) && Timed(ops, commits, skew) && i < h < |ops| && ops[i].Takes(id)
    requires SameLease(ops, i, h + 1, ops[i].runner, leaseSeconds)
    requires Delivered(ops, commits, ops[i].runner, beats)
    requires Loop(beats, interval, timeout, commits[i], commits[h]) && AtMostLost(beats, lost)
    requires WorstGap(interval, timeout, lost) + skew <= leaseSeconds
    ensures forall m | i < m <= h + 1 :: Kept(ops, i, m, id)
  {
    hide Legal, Kept, Loop, AtMostLost, Delivered, SameLease, WorstGap;
    forall m | i < m <= h && (m == h || Renews(ops[m], ops[i].runner))
      ensures GapAt(ops, commits, i, m, ops[i].runner, leaseSeconds - skew)
    {
      LostBeatsGap(ops, commits, skew, i, m, h, ops[i].runner, beats, interval, timeout, lost);
    }
    LeaseSafety(ops, commits, skew, i, h, id, leaseSeconds);
  }

  // ----- that bound is exact too -----

  /**
    A heartbeat arrives just before the claim, `lost` of them do not, and the
    next arrives at the very end of its call: just after a reap.
  */
  function UnheardRun(job: Job, leaseSeconds: real, skew: real, until: Time, cap: int): seq<Op> {
    [ Enqueue(job, 0.0),
      Renew("r", leaseSeconds, 0.0),
      Claim("r", {}, leaseSeconds, cap, 0.0 - skew, Some(job.id)),
      Reap(cap, until),
      Renew("r", leaseSeconds, until) ]
  }

  function UnheardBeats(interval: real, timeout: real, lost: nat): seq<Beat> {
    seq(lost + 2, j requires 0 <= j < lost + 2 =>
      Beat(Turns(j, interval, timeout), timeout,
           if j == 0 then Some(1) else if j == lost + 1 then Some(4) else None))
  }

  lemma UnheardLoop(interval: real, timeout: real, lost: nat)
    requires 0.0 <= interval && 0.0 <= timeout
    ensures Loop(UnheardBeats(interval, timeout, lost), interval, timeout, 0.0, WorstGap(interval, timeout, lost))
    ensures AtMostLost(UnheardBeats(interval, timeout, lost), lost)
  {
    var beats := UnheardBeats(interval, timeout, lost);
    forall j | 0 < j < |beats| ensures NextTurn(beats, j, interval) {
      OneMoreTurn(j - 1, interval, timeout);
    }
    forall j: nat | j + lost < |beats| ensures OneArrives(beats, j, lost) {
      var e: nat := if j == 0 then 0 else lost + 1;
      assert j <= e <= j + lost && beats[e].call.Some?;
    }
  }

  lemma UnheardTenureEnds(job: Job, leaseSeconds: real, skew: real, until: Time, cap: int)
    requires 0.0 <= skew && 0.0 <= until && leaseSeconds < until + skew
    ensures var ops := UnheardRun(job, leaseSeconds, skew, until, cap);
      && Legal(ops) && Timed(ops, [0.0, 0.0, 0.0, until, until], skew)
      && ops[2].Takes(job.id) && EndsTenure(ops, 3, job.id)
  {
    var ops := UnheardRun(job, leaseSeconds, skew, until, cap);
    var queued := map[job.id := NewRow(job, 0.0)];
    assert At(ops, 0) == map[];
    assert At(ops, 1) == queued;
    assert At(ops, 2) == queued;
    assert Reaped(queued, cap, ops[2].now) == queued;
    assert At(ops, 3) == map[job.id := TakeRow(NewRow(job, 0.0), "r", leaseSeconds - skew)];
    forall k | 0 <= k < |ops| ensures LegalAt(ops, k) {
      assert k == 2 || !ops[k].Claim?;
    }
  }

  /**
    And only then: under any interval, timeout, number of losses, lease and skew
    that break the inequality, a server whose loop runs as it should, and loses
    no more heartbeats than that, can have its job taken from it.
  */
  lemma LostHeartbeatsIsTight(job: Job, leaseSeconds: real, skew: real,
                              interval: real, timeout: real, lost: nat, cap: int)
    requires 0.0 <= skew && 0.0 <= interval && 0.0 <= timeout
    requires WorstGap(interval, timeout, lost) + skew > leaseSeconds
    ensures var until := WorstGap(interval, timeout, lost);
      var ops := UnheardRun(job, leaseSeconds, skew, until, cap);
      var commits := [0.0, 0.0, 0.0, until, until];
      var beats := UnheardBeats(interval, timeout, lost);
      && Legal(ops) && Timed(ops, commits, skew)
      && ops[2].Takes(job.id) && SameLease(ops, 2, 4, ops[2].runner, leaseSeconds)
      && Delivered(ops, commits, ops[2].runner, beats)
      && Loop(beats, interval, timeout, commits[2], commits[3]) && AtMostLost(beats, lost)
      && EndsTenure(ops, 3, job.id)
  {
    MoreTurns(0, lost + 1, interval, timeout);
    var until := WorstGap(interval, timeout, lost);
    UnheardTenureEnds(job, leaseSeconds, skew, until, cap);
    UnheardLoop(interval, timeout, lost);
    hide Legal, Timed, EndsTenure, Loop, AtMostLost;
  }
}
