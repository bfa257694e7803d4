/**
  The edge and its test servers together. Each server works one job at a time:
  it polls while idle, and while busy it reports the start, runs, and posts the
  result up to three times; heartbeats come from a thread of their own, at any
  moment. Requests and replies may be lost, but a call that reaches the edge
  takes effect before the server goes on. A server may also stop for good at any
  point, as it does when an error escapes a run: it then takes no more steps.
*/
module Fleets {
  import opened Options
  import opened Queue
  import opened Runs
  import opened Leases
  import opened Agents

  /** `claim` is the position in the log of the claim that gave the server its job. */
  datatype Server = Idle | Busy(id: JobId, claim: nat, tries: nat)

  datatype Fleet = Fleet(log: seq<Op>, servers: map<RunnerId, Server>)

  datatype Step =
    | Enqueued(job: Job, now: Time)
    | SweptBy(cap: int, now: Time)
    | Polled(runner: RunnerId, wanted: set<string>, leaseSeconds: real, cap: int, now: Time,
             pick: Option<JobId>, net: Delivery)
    | Began(runner: RunnerId, now: Time, net: Delivery)
    | Beaten(runner: RunnerId, leaseSeconds: real, now: Time, net: Delivery)
    | Posted(runner: RunnerId, outcome: Outcome, note: string, now: Time, net: Delivery)

  function TableOf(f: Fleet): Table { At(f.log, |f.log|) }

  /** The call that reaches the edge, if one does. */
  function CallOf(f: Fleet, step: Step): Option<Op>
    requires step.Began? || step.Posted? ==> step.runner in f.servers && f.servers[step.runner].Busy?
  {
    match step
    case Enqueued(job, now) => Some(Enqueue(job, now))
    case SweptBy(cap, now) => Some(Reap(cap, now))
    case Polled(runner, wanted, leaseSeconds, cap, now, pick, net) =>
      if net.RequestLost? then None else Some(Claim(runner, wanted, leaseSeconds, cap, now, pick))
    case Began(runner, now, net) =>
      if net.RequestLost? then None else Some(MarkRunning(f.servers[runner].id, runner, now))
    case Beaten(runner, leaseSeconds, now, net) =>
      if net.RequestLost? then None else Some(Renew(runner, leaseSeconds, now))
    case Posted(runner, outcome, note, now, net) =>
      if net.RequestLost? then None else Some(Finish(f.servers[runner].id, runner, outcome, note, now))
  }

  ghost predicate Can(f: Fleet, step: Step) {
    && (match step
        case Enqueued(_, _) => true
        case SweptBy(_, _) => true
        case Polled(runner, _, _, _, _, _, _) => runner in f.servers && f.servers[runner].Idle?
        case Began(runner, _, _) => runner in f.servers && f.servers[runner].Busy? && f.servers[runner].tries == 0
        case Beaten(runner, _, _, _) => runner in f.servers
        case Posted(runner, _, _, _, _) => runner in f.servers && f.servers[runner].Busy?)
    && (CallOf(f, step).Some? ==> Enabled(TableOf(f), CallOf(f, step).value))
  }

  /** The post was accepted, and the server was told so. */
  predicate ToldYes(f: Fleet, step: Step)
    requires step.Posted? && step.runner in f.servers && f.servers[step.runner].Busy?
  {
    step.net.Answered? && Accepts(TableOf(f), CallOf(f, step).value)
  }

  function ServerAfter(f: Fleet, step: Step): Server
    requires step.Polled? || step.Posted?
    requires step.Posted? ==> step.runner in f.servers && f.servers[step.runner].Busy?
  {
    if step.Polled? then
      if step.net.Answered? && step.pick.Some? then Busy(step.pick.value, |f.log|, 0) else Idle
    else
      var server := f.servers[step.runner];
      if ToldYes(f, step) || server.tries + 1 >= TRIES then Idle else server.(tries := server.tries + 1)
  }

  ghost function Do(f: Fleet, step: Step): Fleet
    requires Can(f, step)
  {
    var call := CallOf(f, step);
    Fleet(if call.Some? then f.log + [call.value] else f.log,
          if step.Polled? || step.Posted? then f.servers[step.runner := ServerAfter(f, step)] else f.servers)
  }

  // ----- what every reachable fleet satisfies -----

  /** The server's execution started at a claim of its own, and it has claimed nothing since. */
  ghost predicate ServerOK(log: seq<Op>, runner: RunnerId, server: Server) {
    server.Busy? ==>
      && server.claim < |log| && log[server.claim].Takes(server.id) && log[server.claim].runner == runner
      && server.tries < TRIES
      && (forall m | server.claim < m < |log| :: !(log[m].Claim? && log[m].runner == runner))
      && (server.tries == 0 ==>
        forall m | server.claim < m < |log| :: !(log[m].Finish? && log[m].id == server.id && log[m].runner == runner))
  }

  ghost predicate FleetOK(f: Fleet) {
    Legal(f.log) && forall runner | runner in f.servers :: ServerOK(f.log, runner, f.servers[runner])
  }

  lemma OtherServerStaysOK(f: Fleet, step: Step, runner: RunnerId)
    requires FleetOK(f) && Can(f, step) && runner in f.servers
    requires step.Polled? || step.Posted? ==> step.runner != runner
    ensures ServerOK(Do(f, step).log, runner, f.servers[runner])
  {
    hide Legal, Enabled, At, Accepts;
    assert ServerOK(f.log, runner, f.servers[runner]);
  }

  lemma ActingServerStaysOK(f: Fleet, step: Step)
    requires FleetOK(f) && Can(f, step) && (step.Polled? || step.Posted?)
    ensures ServerOK(Do(f, step).log, step.runner, ServerAfter(f, step))
  {
    hide Legal, Enabled, At, Accepts;
    assert ServerOK(f.log, step.runner, f.servers[step.runner]);
  }

  lemma StepKeepsOK(f: Fleet, step: Step)
    requires FleetOK(f) && Can(f, step)
    ensures FleetOK(Do(f, step))
  {
    forall runner | runner in Do(f, step).servers
      ensures ServerOK(Do(f, step).log, runner, Do(f, step).servers[runner])
    {
      if (step.Polled? || step.Posted?) && step.runner == runner {
        ActingServerStaysOK(f, step);
      } else {
        OtherServerStaysOK(f, step, runner);
      }
    }
    hide ServerOK, Legal, At, Enabled, ServerAfter;
    if CallOf(f, step).Some? {
      LegalExtends(f.log, CallOf(f, step).value);
    }
  }

  // ----- fencing -----

  /**
    Fencing without a token. Whenever a server's start or result is accepted,
    the job's latest claim is the very claim that started this execution: a late
    result of an earlier execution is never recorded, whatever was lost before.
  */
  lemma Fencing(f: Fleet, step: Step)
    requires FleetOK(f) && Can(f, step) && (step.Posted? || step.Began?)
    requires CallOf(f, step).Some? && Accepts(TableOf(f), CallOf(f, step).value)
    ensures var server := f.servers[step.runner];
      LastClaim(f.log, |f.log|, server.id) == server.claim
  {
    hide Legal, At, Enabled;
    var server := f.servers[step.runner];
    assert ServerOK(f.log, step.runner, server);
    HolderIsLastClaimer(f.log, |f.log|, server.id);
  }

  // ----- behaviours -----

  ghost predicate Behaviour(fleets: seq<Fleet>, steps: seq<Step>) {
    && |fleets| == |steps| + 1 && fleets[0].log == []
    && (forall runner | runner in fleets[0].servers :: fleets[0].servers[runner].Idle?)
    && forall k | 0 <= k < |steps| :: Follows(fleets, steps, k)
  }

  ghost predicate Follows(fleets: seq<Fleet>, steps: seq<Step>, k: nat)
    requires k < |steps| && |fleets| == |steps| + 1
  {
    Can(fleets[k], steps[k]) && fleets[k + 1] == Do(fleets[k], steps[k])
  }

  lemma {:induction false} AlwaysOK(fleets: seq<Fleet>, steps: seq<Step>, k: nat)
    requires Behaviour(fleets, steps) && k <= |steps|
    ensures FleetOK(fleets[k])
  {
    hide Can, Do;
    if k == 0 {
      assert Legal(fleets[0].log);
    } else {
      AlwaysOK(fleets, steps, k - 1);
      assert Follows(fleets, steps, k - 1);
      StepKeepsOK(fleets[k - 1], steps[k - 1]);
    }
  }

  /** Every accepted result of every interleaving belongs to the execution of the job's latest claim. */
  lemma EveryAcceptedResultIsCurrent(fleets: seq<Fleet>, steps: seq<Step>, k: nat)
    requires Behaviour(fleets, steps) && k < |steps| && steps[k].Posted?
    ensures steps[k].runner in fleets[k].servers && fleets[k].servers[steps[k].runner].Busy?
    ensures CallOf(fleets[k], steps[k]).Some? && Accepts(TableOf(fleets[k]), CallOf(fleets[k], steps[k]).value) ==>
      var server := fleets[k].servers[steps[k].runner];
      LastClaim(fleets[k].log, |fleets[k].log|, server.id) == server.claim
  {
    hide Legal, At, Enabled, FleetOK, Do, LastClaim, Accepts;
    AlwaysOK(fleets, steps, k);
    FollowsAt(fleets, steps, k);
    if CallOf(fleets[k], steps[k]).Some? && Accepts(TableOf(fleets[k]), CallOf(fleets[k], steps[k]).value) {
      Fencing(fleets[k], steps[k]);
    }
  }

  lemma FollowsAt(fleets: seq<Fleet>, steps: seq<Step>, k: nat)
    requires Behaviour(fleets, steps) && k < |steps|
    ensures Follows(fleets, steps, k)
  {
  }

  // ----- what the steps do -----

  /** A step's call, if its request is not lost, is about the server's own job and carries what the step says. */
  lemma CallsAreAsMade(f: Fleet, step: Step)
    requires Can(f, step)
    ensures step.Enqueued? ==> Do(f, step).log == f.log + [Enqueue(step.job, step.now)]
    ensures step.SweptBy? ==> Do(f, step).log == f.log + [Reap(step.cap, step.now)]
    ensures !step.Enqueued? && !step.SweptBy? && step.net.RequestLost? ==> Do(f, step).log == f.log
    ensures step.Polled? && !step.net.RequestLost? ==>
      Do(f, step).log == f.log + [Claim(step.runner, step.wanted, step.leaseSeconds, step.cap, step.now, step.pick)]
    ensures step.Began? && !step.net.RequestLost? ==>
      Do(f, step).log == f.log + [MarkRunning(f.servers[step.runner].id, step.runner, step.now)]
    ensures step.Beaten? && !step.net.RequestLost? ==>
      Do(f, step).log == f.log + [Renew(step.runner, step.leaseSeconds, step.now)]
    ensures step.Posted? && !step.net.RequestLost? ==>
      Do(f, step).log == f.log + [Finish(f.servers[step.runner].id, step.runner, step.outcome, step.note, step.now)]
  {
    hide Enabled, At, ServerAfter;
  }

  /**
    A server works on the job of a poll's reply, from the claim that gave it; it
    puts the job down after a post that was answered with yes, or its third, and
    nothing else changes what it is at.
  */
  lemma ServersAreAsTold(f: Fleet, step: Step)
    requires Can(f, step)
    ensures !step.Polled? && !step.Posted? ==> Do(f, step).servers == f.servers
    ensures step.Polled? ==>
      Do(f, step).servers == f.servers[step.runner :=
        if step.net.Answered? && step.pick.Some? then Busy(step.pick.value, |f.log|, 0) else Idle]
    ensures step.Posted? ==>
      var server := f.servers[step.runner];
      var yes := step.net.Answered? && server.id in TableOf(f) && HeldBy(TableOf(f)[server.id], step.runner);
      Do(f, step).servers == f.servers[step.runner :=
        if yes || server.tries + 1 >= 3 then Idle else Busy(server.id, server.claim, server.tries + 1)]
  {
    hide Enabled, At;
  }

  /** The result that the edge shows for a job is what the accepted post said, for good. */
  lemma PostIsRecorded(fleets: seq<Fleet>, steps: seq<Step>, k: nat, n: nat)
    requires Behaviour(fleets, steps) && k < n <= |steps| && steps[k].Posted? && !steps[k].net.RequestLost?
    requires steps[k].runner in fleets[k].servers && fleets[k].servers[steps[k].runner].Busy?
    requires var id := fleets[k].servers[steps[k].runner].id;
      id in TableOf(fleets[k]) && HeldBy(TableOf(fleets[k])[id], steps[k].runner)
    ensures var id, t := fleets[k].servers[steps[k].runner].id, TableOf(fleets[n]);
      && id in t && t[id].outcome == Some(steps[k].outcome) && t[id].summary == Some(steps[k].note)
      && t[id].finishedAt == Some(steps[k].now) && t[id].holder == Some(steps[k].runner)
      && t[id].state == if steps[k].outcome.exitCode == 0 then Done else Failed
  {
    hide Apply, At, Enabled, Legal, Do, Can, FleetOK, HeldBy;
    FollowsAt(fleets, steps, k);
    CallsAreAsMade(fleets[k], steps[k]);
    LogGrows(fleets, steps, k + 1, n);
    AlwaysOK(fleets, steps, n);
    var i, log := |fleets[k].log|, fleets[n].log;
    assert log == fleets[k].log + log[i..] && log[i] == fleets[k + 1].log[i];
    AtPrefix(fleets[k].log, log[i..], i);
    FleetIsLegal(fleets, steps, n);
    RecordedResult(log, i, |log|);
  }

  // ----- one job at a time, at the edge too -----

  /** Whatever the edge thinks a server holds is the job that server is working on. */
  ghost predicate HoldsOnlyItsJob(f: Fleet) {
    forall runner, id | runner in f.servers && id in TableOf(f) && HeldBy(TableOf(f)[id], runner) ::
      f.servers[runner].Busy? && f.servers[runner].id == id
  }

  /** The steps that leave a row with a server that does not know of it: a job sent to nobody, a result given up on. */
  predicate Orphans(f: Fleet, step: Step) {
    || (step.Polled? && step.pick.Some? && step.net.ReplyLost?)
    || (step.Posted? && step.net.RequestLost? && step.runner in f.servers && f.servers[step.runner].Busy?
        && f.servers[step.runner].tries + 1 >= TRIES
        && f.servers[step.runner].id in TableOf(f) && HeldBy(TableOf(f)[f.servers[step.runner].id], step.runner))
  }

  /** Who may hold a row after one call. */
  lemma HolderAfter(t: Table, op: Op, id: JobId, runner: RunnerId)
    requires id in Apply(t, op) && HeldBy(Apply(t, op)[id], runner)
    ensures (op.Takes(id) && op.runner == runner) || (id in t && HeldBy(t[id], runner) && !op.Takes(id))
    ensures op.Finish? ==> op.id != id || op.runner != runner
  {
  }

  lemma TakenIsHeld(t: Table, op: Op, id: JobId)
    requires Enabled(t, op) && op.Takes(id)
    ensures id in Apply(t, op) && HeldBy(Apply(t, op)[id], op.runner)
  {
    TakenWasQueued(t, op, id);
    ApplyRow(t, op, id);
  }

  lemma TableAfter(f: Fleet, step: Step)
    requires FleetOK(f) && Can(f, step)
    ensures TableOf(Do(f, step)) ==
      if CallOf(f, step).Some? then Apply(TableOf(f), CallOf(f, step).value) else TableOf(f)
  {
    hide Enabled, ServerAfter, ServerOK;
    if CallOf(f, step).Some? {
      LegalExtends(f.log, CallOf(f, step).value);
    }
  }

  lemma NoOrphanKeeps(f: Fleet, step: Step)
    requires FleetOK(f) && HoldsOnlyItsJob(f) && Can(f, step) && !Orphans(f, step)
    ensures HoldsOnlyItsJob(Do(f, step))
  {
    TableAfter(f, step);
    hide Legal, At, Apply, Enabled, ServerOK, HeldBy;
    var g := Do(f, step);
    forall runner, id | runner in g.servers && id in TableOf(g) && HeldBy(TableOf(g)[id], runner)
      ensures g.servers[runner].Busy? && g.servers[runner].id == id
    {
      if CallOf(f, step).Some? {
        HolderAfter(TableOf(f), CallOf(f, step).value, id, runner);
      }
    }
  }

  lemma OrphanBreaks(f: Fleet, step: Step)
    requires FleetOK(f) && Can(f, step) && Orphans(f, step)
    ensures !HoldsOnlyItsJob(Do(f, step))
  {
    TableAfter(f, step);
    hide Legal, At, Apply, Enabled, ServerOK, HeldBy;
    var g := Do(f, step);
    if step.Polled? {
      TakenIsHeld(TableOf(f), CallOf(f, step).value, step.pick.value);
      assert g.servers[step.runner].Idle?;
    } else {
      assert g.servers[step.runner].Idle? && TableOf(g) == TableOf(f);
    }
  }

  /**
    The edge's view of who works on what stays right through a step if and only
    if the step loses neither the reply that hands out a job nor the last post
    of a result still wanted.
  */
  lemma HoldsOnlyExactly(f: Fleet, step: Step)
    requires FleetOK(f) && HoldsOnlyItsJob(f) && Can(f, step)
    ensures HoldsOnlyItsJob(Do(f, step)) <==> !Orphans(f, step)
  {
    if Orphans(f, step) {
      OrphanBreaks(f, step);
    } else {
      NoOrphanKeeps(f, step);
    }
  }

  lemma {:induction false} AlwaysHoldsOnly(fleets: seq<Fleet>, steps: seq<Step>, k: nat)
    requires Behaviour(fleets, steps) && k <= |steps|
    requires forall m | 0 <= m < k :: !Orphans(fleets[m], steps[m])
    ensures HoldsOnlyItsJob(fleets[k])
  {
    hide Can, Do, Orphans, FleetOK;
    if k > 0 {
      hide HoldsOnlyItsJob;
      AlwaysHoldsOnly(fleets, steps, k - 1);
      AlwaysOK(fleets, steps, k - 1);
      FollowsAt(fleets, steps, k - 1);
      HoldsOnlyExactly(fleets[k - 1], steps[k - 1]);
    }
  }

  // ----- a healthy server is heard -----

  /**
    A server whose lease writes keep the rhythm of lease safety, and which has
    not posted yet, still holds its job: its first post that arrives is accepted.
  */
  lemma HealthyServerIsHeard(f: Fleet, runner: RunnerId, commits: seq<Time>, skew: real, leaseSeconds: real)
    requires FleetOK(f) && runner in f.servers && f.servers[runner].Busy? && f.servers[runner].tries == 0
    requires f.servers[runner].claim + 1 < |f.log| && Timed(f.log, commits, skew)
    requires SameLease(f.log, f.servers[runner].claim, |f.log|, runner, leaseSeconds)
    requires Beating(f.log, commits, f.servers[runner].claim, |f.log| - 1, runner, leaseSeconds - skew)
    ensures f.servers[runner].id in TableOf(f) && HeldBy(TableOf(f)[f.servers[runner].id], runner)
  {
    hide Apply, Enabled, Legal, Beating, SameLease, Timed;
    var server := f.servers[runner];
    var i, h := server.claim, |f.log| - 1;
    assert ServerOK(f.log, runner, server);
    LeaseSafety(f.log, commits, skew, i, h, server.id, leaseSeconds);
    assert Kept(f.log, i, |f.log|, server.id);
    if TableOf(f)[server.id].state.Finished() {
      StepAt(f.log, i, server.id);
      var m := FinishedSince(f.log, i, i + 1, |f.log|, server.id);
      assert false;
    }
  }

  /** A job kept by the claim at `i`, out at `from` and finished by `k` was finished in between by its runner. */
  lemma {:induction false} FinishedSince(log: seq<Op>, i: nat, from: nat, k: nat, id: JobId) returns (m: nat)
    requires Legal(log) && i < from <= k <= |log| && log[i].Takes(id)
    requires forall n | i < n <= k :: Kept(log, i, n, id)
    requires id in At(log, from) && !At(log, from)[id].state.Finished()
    requires id in At(log, k) && At(log, k)[id].state.Finished()
    ensures from <= m < k && log[m].Finish? && log[m].id == id && log[m].runner == log[i].runner
  {
    hide Apply, Enabled, Legal;
    assert k > from;
    StepAt(log, k - 1, id);
    assert Kept(log, i, k, id);
    assert Kept(log, i, k - 1, id);
    if At(log, k - 1)[id].state.Finished() {
      m := FinishedSince(log, i, from, k - 1, id);
    } else {
      m := k - 1;
    }
  }

  // ----- what becomes of an orphan -----

  /** The claim by which the row that the step orphans was handed out, and its job. */
  function OrphanClaim(f: Fleet, step: Step): nat
    requires Can(f, step) && Orphans(f, step)
  {
    if step.Polled? then |f.log| else f.servers[step.runner].claim
  }

  function OrphanJob(f: Fleet, step: Step): JobId
    requires Can(f, step) && Orphans(f, step)
  {
    if step.Polled? then step.pick.value else f.servers[step.runner].id
  }

  /** Lease safety from the claim on, whether or not any call has followed it. */
  lemma KeptAlways(log: seq<Op>, commits: seq<Time>, skew: real, i: nat, id: JobId, leaseSeconds: real)
    requires Legal(log) && Timed(log, commits, skew) && i < |log| && log[i].Takes(id)
    requires SameLease(log, i, |log|, log[i].runner, leaseSeconds)
    requires Beating(log, commits, i, |log| - 1, log[i].runner, leaseSeconds - skew)
    ensures forall m | i < m <= |log| :: Kept(log, i, m, id)
  {
    hide Apply, Legal, Timed, SameLease, Beating;
    if i + 1 < |log| {
      LeaseSafety(log, commits, skew, i, |log| - 1, id, leaseSeconds);
    } else {
      KeptAtFirst(log, i, id);
    }
  }

  /** A job that its claim keeps is not handed out again. */
  lemma KeptIsNotTaken(log: seq<Op>, i: nat, m: nat, id: JobId)
    requires Legal(log) && i < m < |log| && log[i].Takes(id)
    requires Kept(log, i, m, id) && Kept(log, i, m + 1, id)
    ensures !log[m].Takes(id)
  {
    hide Apply, Enabled, Legal;
    StepAt(log, m, id);
  }

  /** Whatever was committed stays committed. */
  lemma {:induction false} LogGrows(fleets: seq<Fleet>, steps: seq<Step>, q: nat, k: nat)
    requires Behaviour(fleets, steps) && q <= k <= |steps|
    ensures fleets[q].log <= fleets[k].log
    ensures fleets[q].servers.Keys <= fleets[k].servers.Keys
  {
    hide Can, Enabled, At, ServerAfter, Accepts;
    if q < k {
      LogGrows(fleets, steps, q, k - 1);
      FollowsAt(fleets, steps, k - 1);
    }
  }

  /** The server is not at this job, and has posted nothing for it since log position `from`. */
  ghost predicate LeavesAlone(f: Fleet, runner: RunnerId, id: JobId, from: nat) {
    && (runner in f.servers && f.servers[runner].Busy? ==> f.servers[runner].id != id)
    && forall n | from <= n < |f.log| :: !(f.log[n].Finish? && f.log[n].id == id && f.log[n].runner == runner)
  }

  lemma LeavesAloneStep(f: Fleet, step: Step, runner: RunnerId, id: JobId, from: nat)
    requires Can(f, step) && LeavesAlone(f, runner, id, from)
    requires step.Polled? && step.runner == runner && CallOf(f, step).Some? ==> !CallOf(f, step).value.Takes(id)
    ensures LeavesAlone(Do(f, step), runner, id, from)
  {
    hide Enabled, At, Accepts;
  }

  lemma OrphaningLeavesAlone(f: Fleet, step: Step)
    requires Can(f, step) && Orphans(f, step)
    ensures LeavesAlone(Do(f, step), step.runner, OrphanJob(f, step), |Do(f, step).log|)
  {
    hide Enabled, At, Accepts;
  }

  /** While the claim keeps the job, the server never comes back to it. */
  lemma {:induction false} StaysAlone(fleets: seq<Fleet>, steps: seq<Step>, p: nat, q: nat, k: nat,
                                      i: nat, runner: RunnerId, id: JobId, from: nat)
    requires Behaviour(fleets, steps) && p < q <= k <= |steps|
    requires LeavesAlone(fleets[p + 1], runner, id, from)
    requires i < |fleets[p + 1].log|
    requires forall m | i < m < |fleets[k].log| :: !fleets[k].log[m].Takes(id)
    ensures LeavesAlone(fleets[q], runner, id, from)
  {
    hide Can, Do, CallOf, LeavesAlone;
    if p + 1 < q {
      StaysAlone(fleets, steps, p, q - 1, k, i, runner, id, from);
      FollowsAt(fleets, steps, q - 1);
      LogGrows(fleets, steps, p + 1, q - 1);
      LogGrows(fleets, steps, q, k);
      CallIsLogged(fleets[q - 1], steps[q - 1], fleets[k].log);
      LeavesAloneStep(fleets[q - 1], steps[q - 1], runner, id, from);
    }
  }

  lemma CallIsLogged(f: Fleet, step: Step, log: seq<Op>)
    requires Can(f, step) && Do(f, step).log <= log
    ensures CallOf(f, step).Some? ==> |f.log| < |log| && log[|f.log|] == CallOf(f, step).value
  {
    hide Enabled, At, Accepts, ServerAfter;
  }

  /** When the step is done, the row is out to the server. */
  lemma OrphanIsHeld(fleets: seq<Fleet>, steps: seq<Step>, p: nat)
    requires Behaviour(fleets, steps) && p < |steps| && Orphans(fleets[p], steps[p])
    ensures Can(fleets[p], steps[p])
    ensures var i, id := OrphanClaim(fleets[p], steps[p]), OrphanJob(fleets[p], steps[p]);
      var log := fleets[p + 1].log;
      && i < |log| && log[i].Takes(id) && log[i].runner == steps[p].runner
      && id in TableOf(fleets[p + 1]) && HeldBy(TableOf(fleets[p + 1])[id], steps[p].runner)
  {
    FollowsAt(fleets, steps, p);
    AlwaysOK(fleets, steps, p);
    TableAfter(fleets[p], steps[p]);
    hide Legal, At, Apply, HeldBy;
    var f, step := fleets[p], steps[p];
    if step.Polled? {
      TakenIsHeld(TableOf(f), CallOf(f, step).value, step.pick.value);
    } else {
      assert ServerOK(f.log, step.runner, f.servers[step.runner]);
    }
  }

  /**
    An orphan is kept alive by its own server. Once a dispatch reply, or the last
    post of a result still wanted, is lost, the row stays out to that server for
    as long as the server's heartbeats keep the rhythm of lease safety, while the
    server never works on it: nobody runs the job, and nobody else can get it.
  */
  lemma OrphanStaysOut(fleets: seq<Fleet>, steps: seq<Step>, p: nat, k: nat,
                       commits: seq<Time>, skew: real, leaseSeconds: real)
    requires Behaviour(fleets, steps) && p < k <= |steps| && Orphans(fleets[p], steps[p])
    requires Can(fleets[p], steps[p]) && Timed(fleets[k].log, commits, skew)
    requires OrphanClaim(fleets[p], steps[p]) < |fleets[k].log|
    requires SameLease(fleets[k].log, OrphanClaim(fleets[p], steps[p]), |fleets[k].log|, steps[p].runner, leaseSeconds)
    requires Beating(fleets[k].log, commits, OrphanClaim(fleets[p], steps[p]), |fleets[k].log| - 1,
                     steps[p].runner, leaseSeconds - skew)
    ensures var runner, id := steps[p].runner, OrphanJob(fleets[p], steps[p]);
      && id in TableOf(fleets[k]) && HeldBy(TableOf(fleets[k])[id], runner)
      && runner in fleets[k].servers && (fleets[k].servers[runner].Busy? ==> fleets[k].servers[runner].id != id)
  {
    hide Apply, Enabled, Legal, Beating, SameLease, Timed, Do, Can, CallOf, LeavesAlone, FleetOK, Kept;
    var runner, id, i := steps[p].runner, OrphanJob(fleets[p], steps[p]), OrphanClaim(fleets[p], steps[p]);
    var log, out := fleets[k].log, |fleets[p + 1].log|;
    OrphanIsHeld(fleets, steps, p);
    LogGrows(fleets, steps, p + 1, k);
    FleetIsLegal(fleets, steps, k);
    KeptAlways(log, commits, skew, i, id, leaseSeconds);
    forall m | i < m < |log| ensures !log[m].Takes(id) {
      KeptIsNotTaken(log, i, m, id);
    }
    FollowsAt(fleets, steps, p);
    OrphaningLeavesAlone(fleets[p], steps[p]);
    StaysAlone(fleets, steps, p, k, k, i, runner, id, out);
    AtPrefix(fleets[p + 1].log, log[out..], out);
    assert log == fleets[p + 1].log + log[out..];
    StillOut(fleets[k], i, runner, id, out);
    KnownServer(fleets, steps, p);
  }

  lemma FleetIsLegal(fleets: seq<Fleet>, steps: seq<Step>, k: nat)
    requires Behaviour(fleets, steps) && k <= |steps|
    ensures Legal(fleets[k].log)
  {
    hide Legal;
    AlwaysOK(fleets, steps, k);
  }

  lemma KnownServer(fleets: seq<Fleet>, steps: seq<Step>, p: nat)
    requires Behaviour(fleets, steps) && p < |steps| && Orphans(fleets[p], steps[p])
    ensures steps[p].runner in fleets[p + 1].servers
  {
    hide Enabled, At, Accepts, ServerAfter, CallOf;
    FollowsAt(fleets, steps, p);
  }

  /** A kept job that was out at `out`, and for which nothing was posted since, is out still. */
  lemma StillOut(f: Fleet, i: nat, runner: RunnerId, id: JobId, out: nat)
    requires Legal(f.log) && i < out <= |f.log| && f.log[i].Takes(id) && f.log[i].runner == runner
    requires forall m | i < m <= |f.log| :: Kept(f.log, i, m, id)
    requires id in At(f.log, out) && HeldBy(At(f.log, out)[id], runner)
    requires LeavesAlone(f, runner, id, out)
    ensures id in TableOf(f) && HeldBy(TableOf(f)[id], runner)
    ensures runner in f.servers && f.servers[runner].Busy? ==> f.servers[runner].id != id
  {
    hide Apply, Legal;
    assert Kept(f.log, i, |f.log|, id);
    if TableOf(f)[id].state.Finished() {
      var m := FinishedSince(f.log, i, out, |f.log|, id);
      assert false;
    }
  }
}
