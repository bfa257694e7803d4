/**
  The loops of a test server against the store: posting a result with retries,
  and claiming and finishing until there is nothing left.
*/
module Agents {
  import opened Options
  import opened Queue
  import opened Runs
  import opened Stores
  import opened Leases
  import Notifier
  import Signing
  import opened Text

  // ----- posting a result -----

  /** What became of one post: it never arrived, its reply never came back, or it was answered. */
  datatype Delivery = RequestLost | ReplyLost | Answered

  const TRIES: nat := 3

  /** The first try that reached the edge, or the number of tries if none did. */
  function FirstArrival(net: seq<Delivery>): nat {
    if net == [] || net[0] != RequestLost then 0 else 1 + FirstArrival(net[1..])
  }

  lemma {:induction false} FirstArrivalFacts(net: seq<Delivery>)
    ensures FirstArrival(net) <= |net|
    ensures FirstArrival(net) < |net| ==> net[FirstArrival(net)] != RequestLost
    ensures forall n | 0 <= n < FirstArrival(net) :: net[n] == RequestLost
  {
    if net != [] && net[0] == RequestLost {
      FirstArrivalFacts(net[1..]);
      forall n | 0 <= n < FirstArrival(net) ensures net[n] == RequestLost {
        assert n > 0 ==> net[n] == net[1..][n - 1];
      }
    }
  }

  /** Once a runner's post has reached a row, posting again changes nothing: accepted or refused, the first decides. */
  lemma FinishTwice(t: Table, id: JobId, runner: RunnerId, first: Op, second: Op)
    requires first.Finish? && second.Finish? && first.id == second.id && first.runner == second.runner
    ensures Apply(Apply(t, first), second) == Apply(t, first)
  {
  }

  method PostOnce(store: Store, id: JobId, runner: RunnerId, outcome: Outcome, note: string, now: Time)
    returns (ok: bool)
    requires store.Valid()
    modifies store`jobs, store`log
    ensures store.Valid()
    ensures store.jobs == Apply(old(store.jobs), Op.Finish(id, runner, outcome, note, now))
  {
    hide Legal, At;
    ghost var met := store.jobs;
    ok := store.Finish(id, runner, outcome, note, now);
    FinishIsApply(met, Op.Finish(id, runner, outcome, note, now), store.jobs);
  }

  /**
    Posts an outcome up to three times, stopping at the first yes. Whatever the
    network does, the table ends as after the single post that arrived first, or
    unchanged if none arrived.
  */
  method SafeResult(store: Store, id: JobId, runner: RunnerId, outcome: Outcome, note: string,
                    net: seq<Delivery>, clock: nat -> Time)
    requires store.Valid() && |net| == TRIES
    modifies store`jobs, store`log
    ensures store.Valid()
    ensures var n := FirstArrival(net);
      store.jobs == if n < TRIES then Apply(old(store.jobs), Op.Finish(id, runner, outcome, note, clock(n)))
                    else old(store.jobs)
  {
    hide Apply, Legal, At;
    ghost var before := store.jobs;
    ghost var n := FirstArrival(net);
    FirstArrivalFacts(net);
    var attempt := 0;
    while attempt < TRIES
      invariant attempt <= TRIES && store.Valid()
      invariant store.jobs ==
        if n < attempt then Apply(before, Op.Finish(id, runner, outcome, note, clock(n))) else before
    {
      if net[attempt] != RequestLost {
        var ok := PostOnce(store, id, runner, outcome, note, clock(attempt));
        if n < attempt {
          FinishTwice(before, id, runner, Op.Finish(id, runner, outcome, note, clock(n)),
                      Op.Finish(id, runner, outcome, note, clock(attempt)));
        }
        if net[attempt] == Answered && ok {
          return;
        }
      }
      attempt := attempt + 1;
    }
  }

  lemma FinishIsApply(t: Table, op: Op, u: Table)
    requires op.Finish?
    requires if op.id in t && HeldBy(t[op.id], op.runner)
             then u == t[op.id := FinishRow(t[op.id], op.outcome, op.note, op.now)] else u == t
    ensures u == Apply(t, op)
  {
  }

  // ----- the report of a suite -----

  /** One `testsuite` element: its attributes as they stand there, if they do. */
  datatype Suite = Suite(
    tests: Option<string>, failures: Option<string>, errors: Option<string>, skipped: Option<string>,
    time: Option<string>)

  /** The file that the suite leaves behind; a missing or malformed one counts as nothing. */
  datatype Report = Unreadable | Readable(suites: seq<Suite>)

  datatype Counts = Counts(passed: int, failed: int, skipped: int)

  /** An absent or empty attribute is zero. */
  function Number(attribute: Option<string>): Option<int> {
    if attribute.None? || attribute.value == "" then Some(0) else Signing.PyInt(attribute.value)
  }

  /** Every attribute is a number; which texts `float()` accepts is left open. */
  predicate Numeric(suite: Suite, floats: string -> bool) {
    && Number(suite.tests).Some? && Number(suite.failures).Some?
    && Number(suite.errors).Some? && Number(suite.skipped).Some?
    && (suite.time.None? || suite.time.value == "" || floats(suite.time.value))
  }

  predicate Countable(report: Report, floats: string -> bool) {
    report.Readable? ==> forall n | 0 <= n < |report.suites| :: Numeric(report.suites[n], floats)
  }

  /** The sum of one attribute over the first `k` suites. */
  function Sum(suites: seq<Suite>, attribute: Suite -> Option<string>, k: nat): int
    requires k <= |suites|
  {
    if k == 0 then 0
    else Sum(suites, attribute, k - 1) + Number(attribute(suites[k - 1])).GetOr(0)
  }

  const TESTS := (s: Suite) => s.tests
  const FAILURES := (s: Suite) => s.failures
  const ERRORS := (s: Suite) => s.errors
  const SKIPPED := (s: Suite) => s.skipped

  /** Failures and errors count as failed; what is neither failed nor skipped passed, but never less than none. */
  function Counted(report: Report): Counts {
    match report
    case Unreadable => Counts(0, 0, 0)
    case Readable(suites) =>
      var n := |suites|;
      var failed, skipped := Sum(suites, FAILURES, n) + Sum(suites, ERRORS, n), Sum(suites, SKIPPED, n);
      Counts(Most(Sum(suites, TESTS, n) - failed - skipped, 0), failed, skipped)
  }

  function Most(a: int, b: int): (m: int)
    ensures m >= a && m >= b && (m == a || m == b)
  {
    if a > b then a else b
  }

  /** Adds up the suites; raises if and only if some attribute is no number. */
  method CountsFromJunit(report: Report, floats: string -> bool) returns (counts: Option<Counts>)
    ensures counts.Some? <==> Countable(report, floats)
    ensures counts.Some? && report.Unreadable? ==> counts.value == Counts(0, 0, 0)
    ensures counts.Some? && report.Readable? ==>
      var suites, n := report.suites, |report.suites|;
      && counts.value.failed == Sum(suites, FAILURES, n) + Sum(suites, ERRORS, n)
      && counts.value.skipped == Sum(suites, SKIPPED, n)
      && counts.value.passed == Most(Sum(suites, TESTS, n) - counts.value.failed - counts.value.skipped, 0)
    ensures counts.Some? ==> counts.value == Counted(report)
  {
    hide Signing.PyInt;
    if report.Unreadable? {
      return Some(Counts(0, 0, 0));
    }
    var suites := report.suites;
    var total, failures, errors, skipped := 0, 0, 0, 0;
    var k := 0;
    while k < |suites|
      invariant k <= |suites| && forall n | 0 <= n < k :: Numeric(suites[n], floats)
      invariant total == Sum(suites, TESTS, k) && failures == Sum(suites, FAILURES, k)
      invariant errors == Sum(suites, ERRORS, k) && skipped == Sum(suites, SKIPPED, k)
    {
      if !Numeric(suites[k], floats) {
        return None;
      }
      total := total + Number(suites[k].tests).value;
      failures := failures + Number(suites[k].failures).value;
      errors := errors + Number(suites[k].errors).value;
      skipped := skipped + Number(suites[k].skipped).value;
      k := k + 1;
    }
    var failed := failures + errors;
    counts := Some(Counts(Most(total - failed - skipped, 0), failed, skipped));
  }

  // ----- what is said in Slack -----

  datatype Milestone = Received | Started | Completed | Summed

  /**
    What the four messages about a job meet: whether there is a token, whether
    the job has the fields that the first message names, and what Slack makes of
    each call.
  */
  datatype Channel = Channel(enabled: bool, named: bool, slack: Milestone -> Notifier.Ack)

  /** The message ends in an error that nothing catches. */
  predicate Fails(channel: Channel, milestone: Milestone) {
    Notifier.Drops(channel.enabled, channel.slack(milestone)) || (milestone.Received? && !channel.named)
  }

  /** Every message has a notifier of its own; the summary is a forced edit of a message not yet posted. */
  method Say(channel: Channel, milestone: Milestone) returns (raised: bool)
    ensures raised <==>
      (channel.enabled && channel.slack(milestone).Dropped?) || (milestone.Received? && !channel.named)
    ensures raised <==> Fails(channel, milestone)
  {
    if milestone.Received? && !channel.named {
      return true;
    }
    var notifier := new Notifier.SlackNotifier(channel.enabled, 0.0);
    if milestone.Summed? {
      var end := notifier.Finish(0.0, channel.slack(milestone));
      return end.Raised();
    }
    var end := notifier.DoPost(0.0, channel.slack(milestone));
    raised := end.Raised();
  }

  method SayTheEnd(channel: Channel) returns (raised: bool)
    ensures raised <==> Fails(channel, Completed) || Fails(channel, Summed)
  {
    raised := Say(channel, Completed);
    if !raised {
      raised := Say(channel, Summed);
    }
  }

  // ----- running one job -----

  /** How the suite's process ended; `isText` says that what it printed can be decoded. */
  datatype SuiteRun = Exited(code: int, isText: bool, report: Report) | TimedOut | CouldNotStart

  /** A job as it is met: allowed by the lists, with a suite of its own, and how that ran. */
  datatype Met = Met(valid: bool, hasSuite: bool, run: SuiteRun, duration: real, floats: string -> bool)

  /** The result, unless one of the last two messages raises before it is posted. */
  function Ended(channel: Channel, outcome: Outcome): Option<Outcome> {
    if Fails(channel, Completed) || Fails(channel, Summed) then None else Some(outcome)
  }

  /**
    What the server reports: 4 for a refused job, 5 for a missing suite, 3 for a
    run that was killed or could not start, and nothing when an error escapes.
  */
  function Reported(channel: Channel, met: Met): Option<Outcome> {
    if Fails(channel, Received) then None
    else if !met.valid then Ended(channel, Outcome(4, 0, 0, 0, 0.0))
    else if Fails(channel, Started) then None
    else if !met.hasSuite then Ended(channel, Outcome(5, 0, 0, 0, 0.0))
    else match met.run
      case TimedOut => Ended(channel, Outcome(3, 0, 0, 0, met.duration))
      case CouldNotStart => Ended(channel, Outcome(3, 0, 0, 0, 0.0))
      case Exited(code, isText, report) =>
        if !isText || !Countable(report, met.floats) then None
        else
          var c := Counted(report);
          Ended(channel, Outcome(code, c.passed, c.failed, c.skipped, met.duration))
  }

  /**
    An error escapes the run: a message raised, of those the job comes to, or
    the suite ran to its end and printed what is no text or counted in what are
    no numbers.
  */
  predicate Escapes(channel: Channel, met: Met) {
    || Fails(channel, Received) || (met.valid && Fails(channel, Started))
    || Fails(channel, Completed) || Fails(channel, Summed)
    || (met.valid && met.hasSuite && met.run.Exited?
        && (!met.run.isText || !Countable(met.run.report, met.floats)))
  }

  /** The start is reported before the suite is looked for, and whatever comes of it the job goes on. */
  function AfterStart(t: Table, id: JobId, runner: RunnerId, channel: Channel, met: Met,
                      start: Delivery, begun: Time): Table
  {
    if Fails(channel, Received) || !met.valid || start == RequestLost then t
    else Apply(t, Op.MarkRunning(id, runner, begun))
  }

  /** The table after the run: the result that arrived first is recorded, if there is a result and it arrives. */
  function AfterRun(t: Table, id: JobId, runner: RunnerId, channel: Channel, met: Met, note: string,
                    start: Delivery, net: seq<Delivery>, begun: Time, clock: nat -> Time): Table
  {
    var report, n := Reported(channel, met), FirstArrival(net);
    var started := AfterStart(t, id, runner, channel, met, start, begun);
    if report.Some? && n < |net| then Apply(started, Op.Finish(id, runner, report.value, note, clock(n))) else started
  }

  /**
    Runs one job and reports, unless an error escapes, which ends the server's
    loop with nothing posted.
  */
  method Execute(store: Store, id: JobId, runner: RunnerId, channel: Channel, met: Met, note: string,
                 start: Delivery, net: seq<Delivery>, begun: Time, clock: nat -> Time)
    returns (escaped: bool)
    requires store.Valid() && |net| == TRIES
    modifies store`jobs, store`log
    ensures store.Valid()
    ensures escaped <==> Escapes(channel, met)
    ensures store.jobs == AfterRun(old(store.jobs), id, runner, channel, met, note, start, net, begun, clock)
  {
    hide Legal, At, Apply, FirstArrival, Countable, Counted, Notifier.Drops;
    var raised := Say(channel, Received);
    if raised {
      return true;
    }
    if !met.valid {
      escaped := Conclude(store, id, runner, channel, Outcome(4, 0, 0, 0, 0.0), note, net, clock);
      return;
    }
    if start != RequestLost {
      Start(store, id, runner, begun);
    }
    raised := Say(channel, Started);
    if raised {
      return true;
    }
    if !met.hasSuite {
      escaped := Conclude(store, id, runner, channel, Outcome(5, 0, 0, 0, 0.0), note, net, clock);
      return;
    }
    match met.run
    case TimedOut =>
      escaped := Conclude(store, id, runner, channel, Outcome(3, 0, 0, 0, met.duration), note, net, clock);
    case CouldNotStart =>
      escaped := Conclude(store, id, runner, channel, Outcome(3, 0, 0, 0, 0.0), note, net, clock);
    case Exited(code, isText, report) =>
      if !isText {
        return true;
      }
      var counts := CountsFromJunit(report, met.floats);
      if counts.None? {
        return true;
      }
      var c := counts.value;
      escaped := Conclude(store, id, runner, channel,
                          Outcome(code, c.passed, c.failed, c.skipped, met.duration), note, net, clock);
  }

  method Start(store: Store, id: JobId, runner: RunnerId, now: Time)
    requires store.Valid()
    modifies store`jobs, store`log
    ensures store.Valid() && store.jobs == Apply(old(store.jobs), Op.MarkRunning(id, runner, now))
  {
    hide Legal, At;
    ghost var before := store.jobs;
    var ok := store.MarkRunning(id, runner, now);
    assert store.jobs == Apply(before, Op.MarkRunning(id, runner, now));
  }

  /** The last two messages, and then the result. */
  method Conclude(store: Store, id: JobId, runner: RunnerId, channel: Channel, outcome: Outcome, note: string,
                  net: seq<Delivery>, clock: nat -> Time)
    returns (escaped: bool)
    requires store.Valid() && |net| == TRIES
    modifies store`jobs, store`log
    ensures store.Valid() && (escaped <==> Fails(channel, Completed) || Fails(channel, Summed))
    ensures var n := FirstArrival(net);
      store.jobs == if !escaped && n < TRIES
        then Apply(old(store.jobs), Op.Finish(id, runner, outcome, note, clock(n))) else old(store.jobs)
  {
    hide Legal, At, Apply;
    escaped := SayTheEnd(channel);
    if !escaped {
      SafeResult(store, id, runner, outcome, note, net, clock);
    }
  }

  /**
    A job that the server held is closed by a run if and only if no error escapes
    and some post arrives. Otherwise the server goes on holding it under the lease
    it had. A job it did not hold, and every other, stays as it was.
  */
  lemma ClosedExactly(t: Table, id: JobId, runner: RunnerId, channel: Channel, met: Met, note: string,
                      start: Delivery, net: seq<Delivery>, begun: Time, clock: nat -> Time)
    ensures var u := AfterRun(t, id, runner, channel, met, note, start, net, begun, clock);
      && u.Keys == t.Keys
      && (forall other | other in t && other != id :: u[other] == t[other])
      && (id in t && !HeldBy(t[id], runner) ==> u[id] == t[id])
      && (id in t && HeldBy(t[id], runner) ==>
        && (u[id].state.Finished() <==> !Escapes(channel, met) && FirstArrival(net) < |net|)
        && (!u[id].state.Finished() ==> HeldBy(u[id], runner) && u[id].lease == t[id].lease)
        && u[id].startedAt ==
          (if t[id].state == Claimed && met.valid && !Fails(channel, Received) && start != RequestLost
           then Some(begun) else t[id].startedAt))
  {
    hide Countable, Counted, Notifier.Drops, FirstArrival;
    ReportedExactly(channel, met);
    hide Reported, Escapes, Fails;
    StartedRow(t, id, runner, begun);
    hide RowStep;
    var mid := AfterStart(t, id, runner, channel, met, start, begun);
    var report, n := Reported(channel, met), FirstArrival(net);
    if report.Some? && n < |net| {
      FinishedRow(mid, id, runner, report.value, note, clock(n));
    }
  }

  /**
    And what a closed job then records, ending by ending. A refused job has 4 and
    a missing suite 5, with zeros; a run that was killed has 3 and the time it
    took, one that could not start 3 and none. Otherwise the exit code is the
    suite's, the duration the one measured, and the counts are those of the
    report: failed are failures and errors, and passed the rest, if any.
  */
  lemma RecordedExactly(t: Table, id: JobId, runner: RunnerId, channel: Channel, met: Met, note: string,
                        start: Delivery, net: seq<Delivery>, begun: Time, clock: nat -> Time)
    requires id in t && HeldBy(t[id], runner)
    requires AfterRun(t, id, runner, channel, met, note, start, net, begun, clock)[id].state.Finished()
    ensures var r := AfterRun(t, id, runner, channel, met, note, start, net, begun, clock)[id];
      && r.outcome.Some? && r.holder == Some(runner) && r.summary == Some(note)
      && r.finishedAt == Some(clock(FirstArrival(net)))
      && r.state == (if r.outcome.value.exitCode == 0 then Done else Failed)
      && var o := r.outcome.value;
      && (!met.valid ==> o == Outcome(4, 0, 0, 0, 0.0))
      && (met.valid && !met.hasSuite ==> o == Outcome(5, 0, 0, 0, 0.0))
      && (met.valid && met.hasSuite && met.run.TimedOut? ==> o == Outcome(3, 0, 0, 0, met.duration))
      && (met.valid && met.hasSuite && met.run.CouldNotStart? ==> o == Outcome(3, 0, 0, 0, 0.0))
      && (met.valid && met.hasSuite && met.run.Exited? ==>
        && o.exitCode == met.run.code && o.duration == met.duration
        && (met.run.report.Unreadable? ==> o.passed == 0 && o.failed == 0 && o.skipped == 0)
        && (met.run.report.Readable? ==>
          var suites, n := met.run.report.suites, |met.run.report.suites|;
          && o.failed == Sum(suites, FAILURES, n) + Sum(suites, ERRORS, n)
          && o.skipped == Sum(suites, SKIPPED, n)
          && var rest := Sum(suites, TESTS, n) - o.failed - o.skipped;
            o.passed == if rest >= 0 then rest else 0))
  {
    ReportMeans(channel, met);
    ReportedExactly(channel, met);
    ClosedExactly(t, id, runner, channel, met, note, start, net, begun, clock);
    hide Countable, Notifier.Drops, FirstArrival, Reported, Escapes, Fails, Sum;
    StartedRow(t, id, runner, begun);
    hide RowStep;
    FinishedRow(AfterStart(t, id, runner, channel, met, start, begun), id, runner,
                Reported(channel, met).value, note, clock(FirstArrival(net)));
  }

  lemma ReportMeans(channel: Channel, met: Met)
    requires Reported(channel, met).Some?
    ensures var o := Reported(channel, met).value;
      && (!met.valid ==> o == Outcome(4, 0, 0, 0, 0.0))
      && (met.valid && !met.hasSuite ==> o == Outcome(5, 0, 0, 0, 0.0))
      && (met.valid && met.hasSuite && met.run.TimedOut? ==> o == Outcome(3, 0, 0, 0, met.duration))
      && (met.valid && met.hasSuite && met.run.CouldNotStart? ==> o == Outcome(3, 0, 0, 0, 0.0))
      && (met.valid && met.hasSuite && met.run.Exited? ==>
        && o.exitCode == met.run.code && o.duration == met.duration
        && (met.run.report.Unreadable? ==> o.passed == 0 && o.failed == 0 && o.skipped == 0)
        && (met.run.report.Readable? ==>
          var suites, n := met.run.report.suites, |met.run.report.suites|;
          && o.failed == Sum(suites, FAILURES, n) + Sum(suites, ERRORS, n)
          && o.skipped == Sum(suites, SKIPPED, n)
          && var rest := Sum(suites, TESTS, n) - o.failed - o.skipped;
            o.passed == if rest >= 0 then rest else 0))
  {
    hide Fails, Countable, Sum;
  }

  /** The sums are of the numbers written in the report, suite by suite; an absent or empty attribute adds nothing. */
  lemma SuiteAdds(suites: seq<Suite>, s: Suite, attribute: Suite -> Option<string>, n: nat)
    ensures Sum(suites, attribute, 0) == 0
    ensures attribute(s) == Some(Decimal(n)) ==>
      Sum(suites + [s], attribute, |suites| + 1) == Sum(suites, attribute, |suites|) + n
    ensures attribute(s) in {None, Some("")} ==>
      Sum(suites + [s], attribute, |suites| + 1) == Sum(suites, attribute, |suites|)
  {
    SumPrefix(suites, s, attribute, |suites|);
    Signing.IntReadsDecimal(n);
    Signing.DecimalIsRead(n);
    hide Signing.PyInt, Decimal;
  }

  lemma {:induction false} SumPrefix(suites: seq<Suite>, s: Suite, attribute: Suite -> Option<string>, k: nat)
    requires k <= |suites|
    ensures Sum(suites + [s], attribute, k) == Sum(suites, attribute, k)
  {
    hide Number;
    if k > 0 {
      SumPrefix(suites, s, attribute, k - 1);
    }
  }

  /** And each sum is over the attribute of its name. */
  lemma AttributesAre(s: Suite)
    ensures TESTS(s) == s.tests && FAILURES(s) == s.failures && ERRORS(s) == s.errors && SKIPPED(s) == s.skipped
  {
  }

  /** A report raises exactly if one of its attributes is there, is not empty and is no number. */
  lemma UncountableExactly(report: Report, floats: string -> bool)
    ensures !Countable(report, floats) <==>
      report.Readable? && exists n | 0 <= n < |report.suites| ::
        var s := report.suites[n];
        || (exists a | a in [s.tests, s.failures, s.errors, s.skipped] ::
             a.Some? && a.value != "" && Signing.PyInt(a.value).None?)
        || (s.time.Some? && s.time.value != "" && !floats(s.time.value))
  {
    hide Signing.PyInt;
    if report.Readable? {
      forall n | 0 <= n < |report.suites|
        ensures !Numeric(report.suites[n], floats) <==>
          var s := report.suites[n];
          || (exists a | a in [s.tests, s.failures, s.errors, s.skipped] ::
               a.Some? && a.value != "" && Signing.PyInt(a.value).None?)
          || (s.time.Some? && s.time.value != "" && !floats(s.time.value))
      {
        var s := report.suites[n];
        var all := [s.tests, s.failures, s.errors, s.skipped];
        assert all[0] in all && all[1] in all && all[2] in all && all[3] in all;
      }
    }
  }

  /** When an error escapes, spelled out in what the run met. */
  lemma EscapesExactly(channel: Channel, met: Met)
    ensures Escapes(channel, met) <==>
      || !channel.named
      || (channel.enabled && exists m | m in {Received, Completed, Summed} :: channel.slack(m).Dropped?)
      || (channel.enabled && met.valid && channel.slack(Started).Dropped?)
      || (met.valid && met.hasSuite && met.run.Exited?
          && (!met.run.isText || !Countable(met.run.report, met.floats)))
  {
    assert Received in {Received, Completed, Summed};
    assert Completed in {Received, Completed, Summed};
    assert Summed in {Received, Completed, Summed};
  }

  lemma ReportedExactly(channel: Channel, met: Met)
    ensures Reported(channel, met).None? <==> Escapes(channel, met)
  {
    hide Fails, Countable, Counted;
  }

  lemma StartedRow(t: Table, id: JobId, runner: RunnerId, now: Time)
    ensures var u := Apply(t, Op.MarkRunning(id, runner, now));
      && u.Keys == t.Keys && (forall other | other in t && other != id :: u[other] == t[other])
      && (id in t ==> (HeldBy(u[id], runner) <==> HeldBy(t[id], runner)) && u[id].lease == t[id].lease)
      && (id in t && !HeldBy(t[id], runner) ==> u[id] == t[id])
      && (id in t && HeldBy(t[id], runner) ==>
        u[id].startedAt == if t[id].state == Claimed then Some(now) else t[id].startedAt)
  {
  }

  lemma FinishedRow(t: Table, id: JobId, runner: RunnerId, outcome: Outcome, note: string, now: Time)
    ensures var u := Apply(t, Op.Finish(id, runner, outcome, note, now));
      && u.Keys == t.Keys && (forall other | other in t && other != id :: u[other] == t[other])
      && (id in t && !HeldBy(t[id], runner) ==> u[id] == t[id])
      && (id in t && HeldBy(t[id], runner) ==>
        && u[id].state == (if outcome.exitCode == 0 then Done else Failed)
        && u[id].outcome == Some(outcome) && u[id].holder == Some(runner) && u[id].finishedAt == Some(now)
        && u[id].summary == Some(note) && u[id].startedAt == t[id].startedAt)
  {
  }

  // ----- the heartbeat thread -----

  /**
    One turn: how long the call blocks, how far into it the edge reads its stamp
    and commits, and what becomes of it.
  */
  datatype Turn = Turn(took: real, stamped: real, committed: real, net: Delivery)

  /** The call blocks for at most `timeout`, and its stamp lags its commit by at most `skew`. */
  predicate Ends(turn: Turn, timeout: real, skew: real) {
    0.0 <= turn.stamped <= turn.committed <= turn.took <= timeout && turn.committed - turn.stamped <= skew
  }

  /** The loop after some turns, the last of which ended now. */
  ghost predicate Turning(beats: seq<Beat>, interval: real, timeout: real, begun: Time, now: Time) {
    if beats == [] then now == begun && 0.0 <= interval && 0.0 <= timeout
    else
      var last := beats[|beats| - 1];
      now == last.sent + last.took && Loop(beats, interval, timeout, begun, now + interval)
  }

  /** The history up to a moment, with its commit times and the thread's calls in it. */
  ghost predicate Dating(log: seq<Op>, times: seq<Time>, skew: real, until: Time, runner: RunnerId, beats: seq<Beat>) {
    && Timed(log, times, skew) && Delivered(log, times, runner, beats)
    && forall k | 0 <= k < |times| :: times[k] <= until
  }

  lemma NoTurnYet(runner: RunnerId, log: seq<Op>, times: seq<Time>, skew: real,
                  interval: real, timeout: real, begun: Time)
    requires Timed(log, times, skew) && 0.0 <= interval && 0.0 <= timeout
    requires forall k | 0 <= k < |times| :: times[k] <= begun
    ensures Turning([], interval, timeout, begun, begun) && Dating(log, times, skew, begun, runner, [])
  {
  }

  lemma TurnAgain(beats: seq<Beat>, beat: Beat, interval: real, timeout: real, begun: Time, now: Time)
    requires Turning(beats, interval, timeout, begun, now) && Blocks(beat, timeout) && beat.sent == now + interval
    ensures Turning(beats + [beat], interval, timeout, begun, beat.sent + beat.took)
  {
    var more := beats + [beat];
    forall j | 0 < j < |more| ensures NextTurn(more, j, interval) {
      assert j < |beats| ==> NextTurn(beats, j, interval);
    }
  }

  /** Calls of others were committed up to a later moment. */
  lemma DatingOthers(log: seq<Op>, times: seq<Time>, skew: real, since: Time, until: Time, runner: RunnerId,
                     beats: seq<Beat>, foreign: seq<Op>, dates: seq<Time>)
    requires Dating(log, times, skew, since, runner, beats) && since <= until
    requires Dated(foreign, dates, since, until, skew)
    ensures Dating(log + foreign, times + dates, skew, until, runner, beats)
  {
  }

  /** The thread's own call was committed at that moment. */
  lemma DatingOwn(log: seq<Op>, times: seq<Time>, skew: real, until: Time, runner: RunnerId,
                  beats: seq<Beat>, beat: Beat, own: Op)
    requires Dating(log, times, skew, until, runner, beats) && Renews(own, runner)
    requires until - skew <= own.now <= until
    requires beat.call == Some(|log|) && beat.sent <= until <= beat.sent + beat.took
    ensures Dating(log + [own], times + [until], skew, until, runner, beats + [beat])
  {
  }

  lemma DatingLost(log: seq<Op>, times: seq<Time>, skew: real, until: Time, runner: RunnerId,
                   beats: seq<Beat>, beat: Beat)
    requires Dating(log, times, skew, until, runner, beats) && beat.call.None?
    ensures Dating(log, times, skew, until, runner, beats + [beat])
  {
  }

  /**
    Waits, calls, and waits again, while everybody else uses the same store at
    any moment, before its calls take effect and after. `times` are the commit
    times of the whole history, and its calls are heartbeats as lease safety
    takes them.
  */
  method HeartbeatLoop(store: Store, runner: RunnerId, leaseSeconds: real, interval: real, ghost timeout: real,
                       ghost skew: real, begun: Time, turns: seq<Turn>, ghost commits: seq<Time>)
    returns (ghost beats: seq<Beat>, ghost times: seq<Time>)
    requires store.Valid() && Timed(store.log, commits, skew) && 0.0 <= skew
    requires forall k | 0 <= k < |commits| :: commits[k] <= begun
    requires 0.0 <= interval && 0.0 <= timeout && |turns| > 0
    requires forall n | 0 <= n < |turns| :: Ends(turns[n], timeout, skew)
    modifies store
    ensures store.Valid() && old(store.log) <= store.log && commits <= times
    ensures Timed(store.log, times, skew) && Delivered(store.log, times, runner, beats)
    ensures |beats| == |turns| && forall n | 0 <= n < |turns| :: beats[n].call.Some? <==> !turns[n].net.RequestLost?
    ensures forall n | 0 <= n < |turns| && beats[n].call.Some? ::
      && beats[n].call.value < |store.log|
      && store.log[beats[n].call.value] == Op.Renew(runner, leaseSeconds, beats[n].sent + turns[n].stamped)
    ensures var last := beats[|beats| - 1];
      && Loop(beats, interval, timeout, begun, last.sent + last.took + interval)
      && forall k | 0 <= k < |times| :: times[k] <= last.sent + last.took + interval
  {
    hide Legal, At, Delivered, Loop, Dating, Timed;
    beats, times := [], commits;
    var now, n := begun, 0;
    ghost var since := begun;
    NoTurnYet(runner, store.log, commits, skew, interval, timeout, begun);
    while n < |turns|
      invariant n == |beats| <= |turns| && store.Valid() && old(store.log) <= store.log && commits <= times
      invariant since <= now && Dating(store.log, times, skew, since, runner, beats)
      invariant Turning(beats, interval, timeout, begun, now)
      invariant forall j | 0 <= j < n :: beats[j].call.Some? <==> !turns[j].net.RequestLost?
      invariant forall j | 0 <= j < n && beats[j].call.Some? ::
        && beats[j].call.value < |store.log|
        && store.log[beats[j].call.value] == Op.Renew(runner, leaseSeconds, beats[j].sent + turns[j].stamped)
    {
      var turn := turns[n];
      assert Ends(turn, timeout, skew);
      now := now + interval;
      ghost var beat := Beat(now, turn.took, None);
      if !turn.net.RequestLost? {
        ghost var log, foreign, dates := store.log, [], [];
        foreign, dates := store.OthersWithin(since, now + turn.committed, skew);
        DatingOthers(log, times, skew, since, now + turn.committed, runner, beats, foreign, dates);
        since := now + turn.committed;
        beat := beat.(call := Some(|store.log|));
        DatingOwn(store.log, times + dates, skew, since, runner, beats, beat,
                  Op.Renew(runner, leaseSeconds, now + turn.stamped));
        var renewed := store.Renew(runner, leaseSeconds, now + turn.stamped);
        times := times + dates + [since];
      } else {
        DatingLost(store.log, times, skew, since, runner, beats, beat);
      }
      TurnAgain(beats, beat, interval, timeout, begun, now - interval);
      beats := beats + [beat];
      now := now + turn.took;
      n := n + 1;
    }
    ghost var log, foreign, dates := store.log, [], [];
    foreign, dates := store.OthersWithin(since, now + interval, skew);
    DatingOthers(log, times, skew, since, now + interval, runner, beats, foreign, dates);
    times := times + dates;
    assert Dating(store.log, times, skew, now + interval, runner, beats);
    DatingMeans(store.log, times, skew, now + interval, runner, beats);
  }

  lemma DatingMeans(log: seq<Op>, times: seq<Time>, skew: real, until: Time, runner: RunnerId, beats: seq<Beat>)
    requires Dating(log, times, skew, until, runner, beats)
    ensures Timed(log, times, skew) && Delivered(log, times, runner, beats)
    ensures forall k | 0 <= k < |times| :: times[k] <= until
  {
  }

  /**
    So the history that the thread leaves is one of lease safety: a job claimed
    while it runs is kept through every call, if at most `lost` heartbeats in a
    row are lost and the worst gap they leave, plus the skew, fits into the lease.
  */
  lemma ThreadProtects(log: seq<Op>, times: seq<Time>, skew: real, beats: seq<Beat>, runner: RunnerId,
                       interval: real, timeout: real, begun: Time, end: Time,
                       i: nat, h: nat, id: JobId, leaseSeconds: real, lost: nat)
    requires Legal(log) && Timed(log, times, skew) && Delivered(log, times, runner, beats)
    requires Loop(beats, interval, timeout, begun, end) && AtMostLost(beats, lost)
    requires i < h < |log| && log[i].Takes(id) && log[i].runner == runner
    requires begun <= times[i] && times[h] <= end && SameLease(log, i, h + 1, runner, leaseSeconds)
    requires WorstGap(interval, timeout, lost) + skew <= leaseSeconds
    ensures forall m | i < m <= h + 1 :: Kept(log, i, m, id)
  {
    assert Loop(beats, interval, timeout, times[i], times[h]);
    hide Legal, Kept, Loop, AtMostLost, Delivered, SameLease, WorstGap;
    LostHeartbeatsHarmless(log, times, skew, i, h, id, leaseSeconds, beats, interval, timeout, lost);
  }

  // ----- draining the queue -----

  function Open(t: Table): set<JobId> {
    set id | id in t && !t[id].state.Terminal()
  }

  /** Nobody holds anything. */
  ghost predicate Quiet(t: Table) {
    forall id | id in t :: !t[id].state.Active()
  }

  /** Everything is closed, or out under a lease that has not passed at `now`. */
  ghost predicate Drained(t: Table, now: Time) {
    forall id | id in t ::
      t[id].state.Terminal() || (t[id].state.Active() && t[id].lease.Some? && now <= t[id].lease.value)
  }

  /** The jobs come oldest first, and no job still waiting is older than any of them. */
  ghost predicate InTurn(t: Table, ids: seq<JobId>) {
    && (forall i | 0 <= i < |ids| :: ids[i] in t)
    && (forall i, j | 0 <= i < j < |ids| :: t[ids[i]].createdAt <= t[ids[j]].createdAt)
  }

  ghost predicate NoneOlder(t: Table, ids: seq<JobId>) {
    forall i, id | 0 <= i < |ids| && id in t && t[id].state == Queued ::
      ids[i] in t && t[ids[i]].createdAt <= t[id].createdAt
  }

  ghost predicate FinishedBy(t: Table, ids: seq<JobId>, runner: RunnerId, outcomes: JobId -> Outcome) {
    forall i | 0 <= i < |ids| ::
      && ids[i] in t && t[ids[i]].holder == Some(runner) && t[ids[i]].outcome == Some(outcomes(ids[i]))
      && t[ids[i]].state == if outcomes(ids[i]).exitCode == 0 then Done else Failed
  }

  /** A claim by an unlabelled runner that found nothing left the table drained. */
  lemma NothingLeftIsDrained(t: Table, cap: int, now: Time)
    requires TableOK(t) && NothingEligible(Reaped(t, cap, now), {})
    ensures Drained(Reaped(t, cap, now), now)
  {
    var swept := Reaped(t, cap, now);
    forall id | id in t
      ensures swept[id].state.Terminal()
        || (swept[id].state.Active() && swept[id].lease.Some? && now <= swept[id].lease.value)
    {
      assert RowOK(id, t[id]);
      assert !Eligible(swept[id], {});
    }
  }

  /** One round: the row a claim took, closed at once by the same runner. */
  function Round(t: Table, id: JobId, runner: RunnerId, expires: Time, cap: int, now: Time,
                 outcome: Outcome, note: string, later: Time): Table
  {
    var swept := Reaped(t, cap, now);
    if id in swept then swept[id := FinishRow(TakeRow(swept[id], runner, expires), outcome, note, later)] else swept
  }

  lemma RoundCloses(t: Table, u: Table, id: JobId, runner: RunnerId, expires: Time, cap: int, now: Time,
                    outcome: Outcome, note: string, later: Time)
    requires TableOK(t) && OldestEligible(Reaped(t, cap, now), {}, id)
    requires u == Round(t, id, runner, expires, cap, now, outcome, note, later)
    ensures u.Keys == t.Keys && id in u && |Open(u)| < |Open(t)|
    ensures forall x | x in t :: t[x].state.Terminal() ==> u[x] == t[x]
    ensures u[id].holder == Some(runner) && u[id].outcome == Some(outcome) && u[id].finishedAt == Some(later)
    ensures u[id].state == if outcome.exitCode == 0 then Done else Failed
    ensures forall x | x in t :: u[x].createdAt == t[x].createdAt
  {
    assert Eligible(Reaped(t, cap, now)[id], {});
    assert RowOK(id, t[id]);
    hide TableOK, OldestEligible, RowOK;
    assert !t[id].state.Terminal();
    forall x | x in t && x != id ensures u[x] == ReapRow(t[x], cap, now) {
    }
    hide Round, Reaped, FinishRow, TakeRow;
    OneFewerOpen(t, u, id, cap, now);
  }

  lemma OneFewerOpen(t: Table, u: Table, id: JobId, cap: int, now: Time)
    requires u.Keys == t.Keys && id in t && !t[id].state.Terminal() && u[id].state.Terminal()
    requires forall x | x in t && x != id :: u[x] == ReapRow(t[x], cap, now)
    ensures |Open(u)| < |Open(t)|
  {
    assert Open(u) <= Open(t) - {id};
    SubsetSize(Open(u), Open(t) - {id});
  }

  lemma SubsetSize(a: set<JobId>, b: set<JobId>)
    requires a <= b
    ensures |a| <= |b|
  {
    assert b == a + (b - a);
  }

  /** With nobody holding anything, a round takes the oldest waiting job and moves no other. */
  lemma QuietRound(t: Table, u: Table, id: JobId, runner: RunnerId, expires: Time, cap: int, now: Time,
                   outcome: Outcome, note: string, later: Time)
    requires Quiet(t) && OldestEligible(Reaped(t, cap, now), {}, id)
    requires u == Round(t, id, runner, expires, cap, now, outcome, note, later)
    ensures Reaped(t, cap, now) == t && Quiet(u) && id in t && t[id].state == Queued
    ensures InState(u, Queued) == InState(t, Queued) - {id}
    ensures forall x | x in t && t[x].state == Queued :: t[id].createdAt <= t[x].createdAt
    ensures u.Keys == t.Keys && forall x | x in t :: u[x].createdAt == t[x].createdAt
  {
    assert Reaped(t, cap, now) == t;
    assert Eligible(t[id], {});
    assert forall x | x in t && t[x].state == Queued :: Eligible(t[x], {});
  }

  lemma TurnExtends(t: Table, u: Table, ids: seq<JobId>, id: JobId)
    requires InTurn(t, ids) && NoneOlder(t, ids) && id in t && t[id].state == Queued
    requires forall x | x in t && t[x].state == Queued :: t[id].createdAt <= t[x].createdAt
    requires u.Keys == t.Keys && forall x | x in t :: u[x].createdAt == t[x].createdAt
    requires InState(u, Queued) == InState(t, Queued) - {id}
    ensures InTurn(u, ids + [id]) && NoneOlder(u, ids + [id])
  {
    forall i, x | 0 <= i < |ids + [id]| && x in u && u[x].state == Queued
      ensures (ids + [id])[i] in u && u[(ids + [id])[i]].createdAt <= u[x].createdAt
    {
      assert x in InState(u, Queued);
      assert t[x].state == Queued;
    }
  }

  /** What draining has achieved so far, from the table it started on. */
  ghost predicate Progress(start: Table, t: Table, ids: seq<JobId>, runner: RunnerId, outcomes: JobId -> Outcome) {
    && t.Keys == start.Keys && FinishedBy(t, ids, runner, outcomes)
    && (Quiet(start) ==>
      && Quiet(t) && InTurn(t, ids) && NoneOlder(t, ids)
      && (set id | id in ids) + InState(t, Queued) == InState(start, Queued))
  }

  lemma ProgressRound(start: Table, t: Table, u: Table, ids: seq<JobId>, id: JobId, runner: RunnerId,
                      expires: Time, cap: int, now: Time, outcomes: JobId -> Outcome, note: string, later: Time)
    requires Progress(start, t, ids, runner, outcomes) && TableOK(t) && OldestEligible(Reaped(t, cap, now), {}, id)
    requires u == Round(t, id, runner, expires, cap, now, outcomes(id), note, later)
    ensures Progress(start, u, ids + [id], runner, outcomes) && |Open(u)| < |Open(t)|
  {
    hide Round, Reaped, TableOK, OldestEligible, InTurn, NoneOlder, Open;
    RoundCloses(t, u, id, runner, expires, cap, now, outcomes(id), note, later);
    FinishedExtends(t, u, ids, id, runner, outcomes);
    if Quiet(start) {
      QuietRound(t, u, id, runner, expires, cap, now, outcomes(id), note, later);
      TurnExtends(t, u, ids, id);
      assert (set x | x in ids + [id]) == (set x | x in ids) + {id};
      assert id in InState(t, Queued);
    }
  }

  /** One claim and, if it returned a job, the result for it. */
  method ClaimAndFinish(store: Store, runner: RunnerId, leaseSeconds: real, cap: int, now: Time,
                        outcomes: JobId -> Outcome, later: Time)
    returns (got: Option<JobId>)
    requires store.Valid()
    modifies store`jobs, store`log
    ensures store.Valid() && TableOK(old(store.jobs))
    ensures PickOK(Reaped(old(store.jobs), cap, now), {}, got)
    ensures got.None? ==> store.jobs == Reaped(old(store.jobs), cap, now)
    ensures got.Some? ==>
      store.jobs ==
        Round(old(store.jobs), got.value, runner, now + leaseSeconds, cap, now, outcomes(got.value), "", later)
  {
    ReachableOK(store.log, |store.log|);
    hide Legal, At, TableOK, PickOK, Reaped;
    ghost var swept := Reaped(store.jobs, cap, now);
    var job := store.Claim(runner, [], leaseSeconds, cap, now);
    assert Wanted([]) == {};
    if job.None? {
      return None;
    }
    var id := job.value.id;
    ghost var taken := TakeRow(swept[id], runner, now + leaseSeconds);
    assert store.jobs == swept[id := taken];
    var ok := store.Finish(id, runner, outcomes(id), "", later);
    assert ok;
    Overwrite(swept, id, taken, FinishRow(taken, outcomes(id), "", later));
    return Some(id);
  }

  /**
    An unlabelled runner that claims and finishes until it is told None, with
    nothing interleaved and a clock that never goes back. It stops; every row is
    then closed or out to somebody under a lease not yet below the last stamp;
    and if nobody held anything at the start, it worked the queue oldest first
    and left nothing waiting.
  */
  method Drain(store: Store, runner: RunnerId, leaseSeconds: real, cap: int,
               outcomes: JobId -> Outcome, clock: nat -> Time)
    returns (ids: seq<JobId>, ghost rounds: nat)
    requires store.Valid()
    modifies store`jobs, store`log
    ensures store.Valid() && store.jobs.Keys == old(store.jobs).Keys
    ensures rounds == |ids| && Drained(store.jobs, clock(2 * rounds))
    ensures forall i | 0 <= i < |ids| ::
      && ids[i] in store.jobs && store.jobs[ids[i]].holder == Some(runner)
      && store.jobs[ids[i]].outcome == Some(outcomes(ids[i]))
      && store.jobs[ids[i]].state == if outcomes(ids[i]).exitCode == 0 then Done else Failed
    ensures Quiet(old(store.jobs)) ==>
      && InTurn(store.jobs, ids) && InState(store.jobs, Queued) == {}
      && (set id | id in ids) == InState(old(store.jobs), Queued)
  {
    hide Reaped, Round, OldestEligible, NothingEligible, TableOK, Legal, At, Drained, InTurn, NoneOlder, Open;
    ids := [];
    ghost var start := store.jobs;
    assert (set id: JobId | id in []) + InState(start, Queued) == InState(start, Queued);
    ProgressStarts(start, runner, outcomes);
    while true
      invariant store.Valid() && Progress(start, store.jobs, ids, runner, outcomes)
      decreases |Open(store.jobs)|
    {
      ghost var t := store.jobs;
      var now := clock(2 * |ids|);
      var got := ClaimAndFinish(store, runner, leaseSeconds, cap, now, outcomes, clock(2 * |ids| + 1));
      if got.None? {
        NothingLeftIsDrained(t, cap, now);
        QuietStaysQuiet(t, cap, now);
        rounds := |ids|;
        ReapKeepsProgress(start, t, ids, runner, outcomes, cap, now);
        return;
      }
      ProgressRound(start, t, store.jobs, ids, got.value, runner, now + leaseSeconds, cap, now,
                    outcomes, "", clock(2 * |ids| + 1));
      ids := ids + [got.value];
    }
  }

  lemma Overwrite(t: Table, id: JobId, r: Row, s: Row)
    ensures t[id := r][id := s] == t[id := s]
  {
  }

  lemma ProgressStarts(start: Table, runner: RunnerId, outcomes: JobId -> Outcome)
    ensures Progress(start, start, [], runner, outcomes)
  {
    assert (set id: JobId | id in []) == {};
  }

  lemma ReapKeepsProgress(start: Table, t: Table, ids: seq<JobId>, runner: RunnerId, outcomes: JobId -> Outcome,
                          cap: int, now: Time)
    requires Progress(start, t, ids, runner, outcomes)
    ensures Progress(start, Reaped(t, cap, now), ids, runner, outcomes)
  {
    QuietStaysQuiet(t, cap, now);
  }

  lemma FinishedExtends(t: Table, u: Table, ids: seq<JobId>, id: JobId, runner: RunnerId, outcomes: JobId -> Outcome)
    requires FinishedBy(t, ids, runner, outcomes)
    requires u.Keys == t.Keys && forall x | x in t :: t[x].state.Terminal() ==> u[x] == t[x]
    requires id in u && u[id].holder == Some(runner) && u[id].outcome == Some(outcomes(id))
    requires u[id].state == if outcomes(id).exitCode == 0 then Done else Failed
    ensures FinishedBy(u, ids + [id], runner, outcomes)
  {
  }

  lemma QuietStaysQuiet(t: Table, cap: int, now: Time)
    ensures Quiet(t) ==> Reaped(t, cap, now) == t
    ensures Quiet(t) && NothingEligible(Reaped(t, cap, now), {}) ==> InState(t, Queued) == {}
  {
    if Quiet(t) {
      assert Reaped(t, cap, now) == t;
      if NothingEligible(t, {}) {
        assert forall id | id in t :: !Eligible(t[id], {});
      }
    }
  }
}
