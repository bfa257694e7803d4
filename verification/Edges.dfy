/**
  The door the test servers knock on. Whether a request verifies under a key is
  left uninterpreted; everything else a handler decides is as written: who may
  enrol which key, who is let in, and which call of the store follows.
*/
module Edges {
  import opened Options
  import opened Queue
  import opened Runs
  import opened Stores
  import Text

  /** The routes and their bodies; `Garbled` is a body that is not JSON, where a handler reads one. */
  datatype Call =
    | Enroll(publicKey: string, labels: seq<string>, token: string, preauthorised: Option<string>)
    | GarbledEnroll
    | Heartbeat
    | OpenPoll
    | StartedJob(id: JobId)
    | ResultJob(id: JobId, outcome: Outcome, note: string)
    | GarbledResult(id: JobId)
  {
    /** Every other call comes from a runner that must be known. */
    predicate Enrols() { Enroll? || GarbledEnroll? }
  }

  /** One request as received; `preauthorised` in an enrolment is the key file found for that runner id then. */
  datatype Request = Request(runner: RunnerId, call: Call, signature: string, now: Time)

  /** The checks and settings of one edge process. */
  datatype Gate = Gate(
    verifies: (string, Request) -> bool, validId: RunnerId -> bool,
    enrollToken: string, leaseSeconds: real, cap: int)

  /** A claim request held open; its labels were read when it was let in. */
  datatype Poll = Poll(runner: RunnerId, key: string, labels: seq<string>)

  /** `ticket` numbers the polls, so that no two share a number. */
  datatype Edge = Edge(runners: map<RunnerId, RunnerRow>, log: seq<Op>, polls: map<nat, Poll>, ticket: nat)

  /** A request, one look at the queue for a held claim, the end of its wait, or a job queued from Slack. */
  datatype Event =
    | Arrives(req: Request)
    | Looks(poll: nat, pick: Option<JobId>, now: Time)
    | TimesOut(poll: nat)
    | Slash(job: Job, now: Time)

  /** `Crashed` is an error raised in the handler, which the framework answers with 500. */
  datatype Reply = BadRequest | Unauthorised | Accepted | Conflict | Held | Crashed

  function TableOf(e: Edge): Table { At(e.log, |e.log|) }

  // ----- decisions -----

  predicate LetIn(gate: Gate, e: Edge, req: Request) {
    gate.validId(req.runner) && req.runner in e.runners && gate.verifies(e.runners[req.runner].publicKey, req)
  }

  function EnrolReply(gate: Gate, e: Edge, req: Request): Reply
    requires req.call.Enroll?
  {
    var call := req.call;
    if !gate.validId(req.runner) || call.publicKey == "" then BadRequest
    else if !gate.verifies(call.publicKey, req) then Unauthorised
    else if req.runner in e.runners then
      if e.runners[req.runner].publicKey != call.publicKey then Unauthorised else Accepted
    else if call.preauthorised.Some? then
      if call.preauthorised.value != call.publicKey then Unauthorised else Accepted
    else if gate.enrollToken == "" || call.token == "" then Unauthorised
    else if !Ascii(call.token) || !Ascii(gate.enrollToken) then Crashed
    else if call.token == gate.enrollToken then Accepted
    else Unauthorised
  }

  /** The constant-time comparison takes texts of ASCII only, and raises otherwise. */
  predicate Ascii(s: string) { forall n | 0 <= n < |s| :: s[n] as int < 128 }

  /** The store call an admitted request makes at once. */
  function StoreCall(gate: Gate, req: Request): Option<Op> {
    match req.call
    case Heartbeat => Some(Renew(req.runner, gate.leaseSeconds, req.now))
    case StartedJob(id) => Some(MarkRunning(id, req.runner, req.now))
    case ResultJob(id, outcome, note) => Some(Finish(id, req.runner, outcome, note, req.now))
    case _ => None
  }

  function ReplyTo(gate: Gate, e: Edge, req: Request): Reply {
    if req.call.Enroll? then EnrolReply(gate, e, req)
    else if req.call.GarbledEnroll? then BadRequest
    else if !LetIn(gate, e, req) then Unauthorised
    else if req.call.GarbledResult? then BadRequest
    else if req.call.OpenPoll? then Held
    else if req.call.Heartbeat? || Accepts(TableOf(e), StoreCall(gate, req).value) then Accepted
    else Conflict
  }

  function EnrolledRow(e: Edge, req: Request): RunnerRow
    requires req.call.Enroll?
  {
    RunnerRow(req.call.publicKey, Stored(KeptLabels(req.call.labels)),
              if req.runner in e.runners then e.runners[req.runner].enrolledAt else req.now, req.now)
  }

  /** The handler drops labels that are nothing but whitespace. */
  function KeptLabels(labels: seq<string>): seq<string> {
    if labels == [] then []
    else if Text.Strip(labels[0]) == "" then KeptLabels(labels[1..])
    else [labels[0]] + KeptLabels(labels[1..])
  }

  function StoredLabels(row: RunnerRow): seq<string> { ReadBack(row.labels) }

  function Touched(e: Edge, runner: RunnerId, now: Time): map<RunnerId, RunnerRow>
    requires runner in e.runners
  {
    e.runners[runner := e.runners[runner].(lastSeen := now)]
  }

  predicate OpensPoll(gate: Gate, e: Edge, event: Event) {
    event.Arrives? && event.req.call.OpenPoll? && LetIn(gate, e, event.req)
  }

  function LookOp(gate: Gate, e: Edge, event: Event): Op
    requires event.Looks? && event.poll in e.polls
  {
    var poll := e.polls[event.poll];
    Claim(poll.runner, Wanted(poll.labels), gate.leaseSeconds, gate.cap, event.now, event.pick)
  }

  /** The call the event commits in the store, if any. */
  function CallOf(gate: Gate, e: Edge, event: Event): Option<Op> {
    match event
    case Arrives(req) =>
      if req.call.Enrols() || !LetIn(gate, e, req) then None else StoreCall(gate, req)
    case Looks(poll, _, _) => if poll in e.polls then Some(LookOp(gate, e, event)) else None
    case TimesOut(_) => None
    case Slash(job, now) => Some(Enqueue(job, now))
  }

  ghost predicate Can(gate: Gate, e: Edge, event: Event) {
    && (event.Looks? || event.TimesOut? ==> event.poll in e.polls)
    && (CallOf(gate, e, event).Some? ==> Enabled(TableOf(e), CallOf(gate, e, event).value))
  }

  function RunnersAfter(gate: Gate, e: Edge, event: Event): map<RunnerId, RunnerRow> {
    if !event.Arrives? then e.runners
    else if event.req.call.Enroll? then
      if EnrolReply(gate, e, event.req) == Accepted
      then e.runners[event.req.runner := EnrolledRow(e, event.req)] else e.runners
    else if !event.req.call.GarbledEnroll? && LetIn(gate, e, event.req) then Touched(e, event.req.runner, event.req.now)
    else e.runners
  }

  function PollsAfter(gate: Gate, e: Edge, event: Event): map<nat, Poll> {
    match event
    case Arrives(req) =>
      if OpensPoll(gate, e, event)
      then e.polls[e.ticket := Poll(req.runner, e.runners[req.runner].publicKey, StoredLabels(e.runners[req.runner]))]
      else e.polls
    case Looks(poll, pick, _) => if pick.Some? then e.polls - {poll} else e.polls
    case TimesOut(poll) => e.polls - {poll}
    case Slash(_, _) => e.polls
  }

  function After(gate: Gate, e: Edge, event: Event): Edge {
    Edge(RunnersAfter(gate, e, event),
         if CallOf(gate, e, event).Some? then e.log + [CallOf(gate, e, event).value] else e.log,
         PollsAfter(gate, e, event),
         if OpensPoll(gate, e, event) then e.ticket + 1 else e.ticket)
  }

  // ----- behaviours -----

  const EMPTY := Edge(map[], [], map[], 0)

  /** Any sequence of requests, looks and time-outs that one edge process serves, from an empty database. */
  ghost predicate Behaviour(gate: Gate, edges: seq<Edge>, events: seq<Event>) {
    && |edges| == |events| + 1 && edges[0] == EMPTY
    && forall k | 0 <= k < |events| :: Follows(gate, edges, events, k)
  }

  ghost predicate Follows(gate: Gate, edges: seq<Edge>, events: seq<Event>, k: nat)
    requires k < |events| && |edges| == |events| + 1
  {
    Can(gate, edges[k], events[k]) && edges[k + 1] == After(gate, edges[k], events[k])
  }

  lemma StepsTo(gate: Gate, edges: seq<Edge>, events: seq<Event>, k: nat)
    requires Behaviour(gate, edges, events) && k < |events|
    ensures Can(gate, edges[k], events[k]) && edges[k + 1] == After(gate, edges[k], events[k])
  {
    assert Follows(gate, edges, events, k);
  }

  /** Every run of the edge is a legal run of its queue. */
  lemma {:induction false} EdgeRunIsLegal(gate: Gate, edges: seq<Edge>, events: seq<Event>, k: nat)
    requires Behaviour(gate, edges, events) && k <= |events|
    ensures Legal(edges[k].log)
  {
    hide Can, CallOf, Apply, At, Enabled, RunnersAfter, PollsAfter;
    if k == 0 {
      assert Legal([]);
    } else {
      EdgeRunIsLegal(gate, edges, events, k - 1);
      StepsTo(gate, edges, events, k - 1);
      if CallOf(gate, edges[k - 1], events[k - 1]).Some? {
        CallIsEnabled(gate, edges[k - 1], events[k - 1]);
        LegalExtends(edges[k - 1].log, CallOf(gate, edges[k - 1], events[k - 1]).value);
      }
    }
  }

  lemma CallIsEnabled(gate: Gate, e: Edge, event: Event)
    requires Can(gate, e, event) && CallOf(gate, e, event).Some?
    ensures Enabled(TableOf(e), CallOf(gate, e, event).value)
  {
  }

  // ----- identity -----

  /**
    A runner's key never changes after its first enrolment, although the
    statement that enrols would overwrite it.
  */
  lemma {:induction false} KeyNeverChanges(gate: Gate, edges: seq<Edge>, events: seq<Event>,
                                           i: nat, k: nat, runner: RunnerId)
    requires Behaviour(gate, edges, events) && i <= k <= |events| && runner in edges[i].runners
    ensures runner in edges[k].runners
    ensures edges[k].runners[runner].publicKey == edges[i].runners[runner].publicKey
    ensures edges[k].runners[runner].enrolledAt == edges[i].runners[runner].enrolledAt
  {
    hide Can, CallOf, PollsAfter;
    if i < k {
      KeyNeverChanges(gate, edges, events, i, k - 1, runner);
      StepsTo(gate, edges, events, k - 1);
    }
  }

  /** The event at `i` enrolled the runner for the first time, with this key, proved and trusted. */
  ghost predicate FirstEnrols(gate: Gate, e: Edge, event: Event, runner: RunnerId, key: string) {
    && event.Arrives? && event.req.call.Enroll? && event.req.runner == runner && runner !in e.runners
    && event.req.call.publicKey == key && gate.verifies(key, event.req)
    && (event.req.call.preauthorised == Some(key)
        || (event.req.call.preauthorised.None? && gate.enrollToken != "" && event.req.call.token == gate.enrollToken))
  }

  /** Every known runner got its key from a first enrolment signed by that very key and trusted by the operator. */
  lemma {:induction false} KeyHasOrigin(gate: Gate, edges: seq<Edge>, events: seq<Event>, k: nat, runner: RunnerId)
    requires Behaviour(gate, edges, events) && k <= |events| && runner in edges[k].runners
    ensures exists i | 0 <= i < k :: FirstEnrols(gate, edges[i], events[i], runner, edges[k].runners[runner].publicKey)
  {
    hide Can, CallOf, PollsAfter;
    StepsTo(gate, edges, events, k - 1);
    if runner in edges[k - 1].runners {
      KeyNeverChanges(gate, edges, events, k - 1, k, runner);
      KeyHasOrigin(gate, edges, events, k - 1, runner);
    } else {
      assert FirstEnrols(gate, edges[k - 1], events[k - 1], runner, edges[k].runners[runner].publicKey);
    }
  }

  /**
    A refused or crashed request leaves no mark, not even a new `last_seen`, with one
    exception: a result whose body is not JSON is refused only after its sender
    was let in, and so counts as a sign of life. That is all it changes.
  */
  lemma RefusedChangesNothing(gate: Gate, e: Edge, req: Request)
    requires ReplyTo(gate, e, req) in {BadRequest, Unauthorised, Crashed}
    ensures After(gate, e, Arrives(req)) == e
      <==> !(req.call.GarbledResult? && LetIn(gate, e, req) && e.runners[req.runner].lastSeen != req.now)
    ensures req.call.GarbledResult? && LetIn(gate, e, req) ==>
      After(gate, e, Arrives(req)) == e.(runners := Touched(e, req.runner, req.now))
  {
    if req.call.GarbledResult? && LetIn(gate, e, req) {
      var touched := Touched(e, req.runner, req.now);
      assert touched == e.runners <==> touched[req.runner] == e.runners[req.runner];
    }
  }

  // ----- where a committed call came from -----

  /** The event at `j` committed the call that stands at position `n` of the log. */
  ghost predicate CommittedBy(gate: Gate, edges: seq<Edge>, events: seq<Event>, j: nat, n: nat, op: Op)
    requires j < |events| && |edges| == |events| + 1
  {
    |edges[j].log| == n && CallOf(gate, edges[j], events[j]) == Some(op)
  }

  lemma {:induction false} CallHasOrigin(gate: Gate, edges: seq<Edge>, events: seq<Event>, k: nat, n: nat)
    requires Behaviour(gate, edges, events) && k <= |events| && n < |edges[k].log|
    ensures exists j | 0 <= j < k :: CommittedBy(gate, edges, events, j, n, edges[k].log[n])
  {
    hide Can, CallOf, PollsAfter, RunnersAfter;
    StepsTo(gate, edges, events, k - 1);
    if n < |edges[k - 1].log| {
      assert edges[k].log[n] == edges[k - 1].log[n];
      CallHasOrigin(gate, edges, events, k - 1, n);
    } else {
      assert CommittedBy(gate, edges, events, k - 1, n, edges[k].log[n]);
    }
  }

  /** The event let this claim request in under that key. */
  ghost predicate LetsPollIn(gate: Gate, e: Edge, event: Event, runner: RunnerId, key: string) {
    OpensPoll(gate, e, event) && event.req.runner == runner
    && e.runners[runner].publicKey == key && gate.verifies(key, event.req)
  }

  /** The poll is that request's, under its runner's key and with its runner's labels as stored then. */
  ghost predicate PollFrom(gate: Gate, e: Edge, event: Event, poll: Poll) {
    && LetsPollIn(gate, e, event, poll.runner, poll.key)
    && poll.labels == Text.NonEmpty(Text.Split(e.runners[poll.runner].labels, ','))
  }

  lemma {:induction false} PollHasOrigin(gate: Gate, edges: seq<Edge>, events: seq<Event>, k: nat, poll: nat)
    requires Behaviour(gate, edges, events) && k <= |events| && poll in edges[k].polls
    ensures exists i | 0 <= i < k :: PollFrom(gate, edges[i], events[i], edges[k].polls[poll])
  {
    hide Can, CallOf, RunnersAfter;
    StepsTo(gate, edges, events, k - 1);
    if poll in edges[k - 1].polls && edges[k].polls[poll] == edges[k - 1].polls[poll] {
      PollHasOrigin(gate, edges, events, k - 1, poll);
    } else {
      assert PollFrom(gate, edges[k - 1], events[k - 1], edges[k].polls[poll]);
    }
  }

  /** A look for a poll let in under that runner and key returned the job; its claim stands at log position `n`. */
  ghost predicate HandsOut(e: Edge, event: Event, n: nat, id: JobId, runner: RunnerId, key: string) {
    && event.Looks? && event.pick == Some(id) && |e.log| == n
    && event.poll in e.polls && e.polls[event.poll].runner == runner && e.polls[event.poll].key == key
  }

  /** Some earlier claim request of this runner, verified under this key, was handed the job at log position `n`. */
  ghost predicate HandedOut(gate: Gate, edges: seq<Edge>, events: seq<Event>, k: nat,
                            n: nat, id: JobId, runner: RunnerId, key: string)
    requires k <= |events| && |edges| == |events| + 1
  {
    exists i, j | 0 <= i < j < k ::
      LetsPollIn(gate, edges[i], events[i], runner, key)
      && HandsOut(edges[j], events[j], n, id, runner, key)
  }

  lemma ClaimWasLetIn(gate: Gate, edges: seq<Edge>, events: seq<Event>, k: nat, n: nat, id: JobId)
    requires Behaviour(gate, edges, events) && k <= |events| && n < |edges[k].log| && edges[k].log[n].Takes(id)
    requires edges[k].log[n].runner in edges[k].runners
    ensures var runner := edges[k].log[n].runner;
      HandedOut(gate, edges, events, k, n, id, runner, edges[k].runners[runner].publicKey)
  {
    hide RunnersAfter, PollsAfter, Enabled, StoredLabels, Wanted;
    var runner := edges[k].log[n].runner;
    var key := edges[k].runners[runner].publicKey;
    CallHasOrigin(gate, edges, events, k, n);
    var j :| 0 <= j < k && CommittedBy(gate, edges, events, j, n, edges[k].log[n]);
    StepsTo(gate, edges, events, j);
    assert events[j].Looks? && events[j].pick == Some(id);
    var poll := edges[j].polls[events[j].poll];
    PollHasOrigin(gate, edges, events, j, events[j].poll);
    var i :| 0 <= i < j && PollFrom(gate, edges[i], events[i], poll);
    KeyNeverChanges(gate, edges, events, i, k, runner);
    assert LetsPollIn(gate, edges[i], events[i], runner, key);
    assert HandsOut(edges[j], events[j], n, id, runner, key);
  }

  /**
    An accepted result is authentic from end to end. The request verified under
    the key of the runner's first, trusted enrolment; the job's latest claim was
    handed to a request of the same runner verified under the same key; and
    nobody else has had the job since.
  */
  lemma AcceptedResultIsAuthentic(gate: Gate, edges: seq<Edge>, events: seq<Event>, k: nat, req: Request)
    requires Behaviour(gate, edges, events) && k < |events| && events[k] == Arrives(req)
    requires req.call.ResultJob? && ReplyTo(gate, edges[k], req) == Accepted
    ensures req.runner in edges[k].runners
    ensures var key, log, id := edges[k].runners[req.runner].publicKey, edges[k].log, req.call.id;
      var n := LastClaim(log, |log|, id);
      && gate.verifies(key, req)
      && (exists i | 0 <= i < k :: FirstEnrols(gate, edges[i], events[i], req.runner, key))
      && n >= 0 && log[n].runner == req.runner && Runs.Held(log, n, |log|, id)
      && HandedOut(gate, edges, events, k, n, id, req.runner, key)
  {
    hide RunnersAfter, PollsAfter, Enabled, Apply, At, HandedOut;
    var log := edges[k].log;
    EdgeRunIsLegal(gate, edges, events, k);
    KeyHasOrigin(gate, edges, events, k, req.runner);
    HolderIsLastClaimer(log, |log|, req.call.id);
    ClaimWasLetIn(gate, edges, events, k, LastClaim(log, |log|, req.call.id), req.call.id);
  }

  // ----- what a request does -----

  lemma {:induction false} LogGrows(gate: Gate, edges: seq<Edge>, events: seq<Event>, k: nat, n: nat)
    requires Behaviour(gate, edges, events) && k <= n <= |events|
    ensures edges[k].log <= edges[n].log
    ensures At(edges[n].log, |edges[k].log|) == TableOf(edges[k])
  {
    hide Can, CallOf, RunnersAfter, PollsAfter, At;
    if k < n {
      LogGrows(gate, edges, events, k, n - 1);
      StepsTo(gate, edges, events, n - 1);
    }
    assert edges[n].log == edges[k].log + edges[n].log[|edges[k].log|..];
    AtPrefix(edges[k].log, edges[n].log[|edges[k].log|..], |edges[k].log|);
  }

  /** The step of the table under an event that makes a call. */
  lemma TableAfter(gate: Gate, e: Edge, event: Event, op: Op)
    requires CallOf(gate, e, event) == Some(op)
    ensures TableOf(After(gate, e, event)) == Apply(TableOf(e), op)
    ensures After(gate, e, event).log == e.log + [op]
  {
    hide Apply;
    AtPrefix(e.log, [op], |e.log|);
  }

  /** Heard are a start from the holder of a claimed job and a result from the holder of one that is out. */
  lemma HeardExactly(gate: Gate, e: Edge, req: Request)
    requires LetIn(gate, e, req)
    ensures req.call.Heartbeat? ==> ReplyTo(gate, e, req) == Accepted
    ensures req.call.StartedJob? ==>
      var t, id := TableOf(e), req.call.id;
      ReplyTo(gate, e, req) ==
        if id in t && t[id].state == Claimed && t[id].holder == Some(req.runner) then Accepted else Conflict
    ensures req.call.ResultJob? ==>
      var t, id := TableOf(e), req.call.id;
      ReplyTo(gate, e, req) ==
        if id in t && t[id].state in {Claimed, Running} && t[id].holder == Some(req.runner) then Accepted else Conflict
  {
    hide At;
  }

  /** A conflict is noted as a sign of life and changes no job. */
  lemma ConflictChangesNoJob(gate: Gate, e: Edge, req: Request)
    requires ReplyTo(gate, e, req) == Conflict
    ensures TableOf(After(gate, e, Arrives(req))) == TableOf(e)
  {
    TableAfter(gate, e, Arrives(req), StoreCall(gate, req).value);
    hide At;
    Runs.RefusedChangesNothing(TableOf(e), StoreCall(gate, req).value);
  }

  /**
    An accepted result is recorded as it was posted, for good: the outcome and
    the note, DONE exactly if the exit code is zero, and the stamp of the post.
  */
  lemma ResultIsRecorded(gate: Gate, edges: seq<Edge>, events: seq<Event>, k: nat, n: nat, req: Request)
    requires Behaviour(gate, edges, events) && k < n <= |events| && events[k] == Arrives(req)
    requires req.call.ResultJob? && ReplyTo(gate, edges[k], req) == Accepted
    ensures req.call.id in TableOf(edges[n])
    ensures var r := TableOf(edges[n])[req.call.id];
      && r.outcome == Some(req.call.outcome) && r.summary == Some(req.call.note)
      && r.finishedAt == Some(req.now) && r.holder == Some(req.runner) && r.lease == None
      && r.state == if req.call.outcome.exitCode == 0 then Done else Failed
  {
    hide Apply, At, Enabled, RunnersAfter, PollsAfter;
    StepsTo(gate, edges, events, k);
    var i, log := |edges[k].log|, edges[n].log;
    LogGrows(gate, edges, events, k, n);
    LogGrows(gate, edges, events, k + 1, n);
    EdgeRunIsLegal(gate, edges, events, n);
    assert edges[k + 1].log == edges[k].log + [log[i]];
    assert log[i] == Finish(req.call.id, req.runner, req.call.outcome, req.call.note, req.now);
    RecordedResult(log, i, |log|);
    ReachableOK(log, |log|);
  }

  /** An accepted start leaves the job running since the stamp of the start, and nothing else changed. */
  lemma StartIsRecorded(gate: Gate, e: Edge, req: Request)
    requires req.call.StartedJob? && ReplyTo(gate, e, req) == Accepted
    ensures req.call.id in TableOf(e)
    ensures var t, id := TableOf(e), req.call.id;
      TableOf(After(gate, e, Arrives(req))) == t[id := t[id].(state := Running, startedAt := Some(req.now))]
  {
    TableAfter(gate, e, Arrives(req), StoreCall(gate, req).value);
    hide At;
  }

  /** A heartbeat let in extends what its runner holds by the edge's lease from its stamp, and nothing else. */
  lemma HeartbeatExtends(gate: Gate, e: Edge, req: Request)
    requires req.call.Heartbeat? && LetIn(gate, e, req)
    ensures var t, u := TableOf(e), TableOf(After(gate, e, Arrives(req)));
      && u.Keys == t.Keys
      && forall id | id in t ::
        u[id] == if t[id].state in {Claimed, Running} && t[id].holder == Some(req.runner)
                 then t[id].(lease := Some(req.now + gate.leaseSeconds)) else t[id]
  {
    TableAfter(gate, e, Arrives(req), StoreCall(gate, req).value);
    hide At;
  }

  /** A job queued from Slack waits with the payload and the stamp it was queued with, unless its id is known. */
  lemma SlackJobIsQueued(gate: Gate, edges: seq<Edge>, events: seq<Event>, k: nat, n: nat, job: Job, now: Time)
    requires Behaviour(gate, edges, events) && k < n <= |events| && events[k] == Slash(job, now)
    requires job.id !in TableOf(edges[k])
    ensures job.id in TableOf(edges[n])
    ensures TableOf(edges[n])[job.id].job == job && TableOf(edges[n])[job.id].createdAt == now
  {
    hide Apply, At, Enabled, RunnersAfter, PollsAfter;
    StepsTo(gate, edges, events, k);
    var i, log := |edges[k].log|, edges[n].log;
    LogGrows(gate, edges, events, k, n);
    LogGrows(gate, edges, events, k + 1, n);
    assert edges[k + 1].log == edges[k].log + [log[i]];
    EnqueueIsKept(log, i, |log|);
  }

  /** The look's own claim, against the labels read when its request was let in. */
  lemma LookIsForItsLabels(gate: Gate, e: Edge, event: Event, labels: seq<string>)
    requires event.Looks? && event.poll in e.polls && Can(gate, e, event)
    requires e.polls[event.poll].labels == labels && "" !in labels
    ensures var t, u := TableOf(e), TableOf(After(gate, e, event));
      && u.Keys == t.Keys
      && (forall id | id in t && event.pick != Some(id) :: ReapedRow(t[id], u[id], gate.cap, event.now))
      && (event.pick.Some? ==>
        var id := event.pick.value;
        && id in t && (labels == [] || t[id].job.server in labels)
        && u[id].job == t[id].job && u[id].state == Claimed && u[id].holder == Some(e.polls[event.poll].runner)
        && u[id].lease == Some(event.now + gate.leaseSeconds) && u[id].attempts == t[id].attempts + 1)
      && (event.pick.None? ==>
        forall id | id in u && u[id].state == Queued :: labels != [] && u[id].job.server !in labels)
  {
    var op := LookOp(gate, e, event);
    TableAfter(gate, e, event, op);
    PickForLabels(Reaped(TableOf(e), gate.cap, event.now), labels, event.pick);
    hide At, Can, Eligible;
    var t := TableOf(e);
    forall id | id in t
      ensures event.pick != Some(id) ==> ReapedRow(t[id], RowStep(id, t[id], op), gate.cap, event.now)
      ensures event.pick == Some(id) && ReapRow(t[id], gate.cap, event.now).state == Queued ==>
        RowStep(id, t[id], op) == t[id].(state := Claimed, holder := Some(op.runner),
                                         lease := Some(event.now + gate.leaseSeconds), attempts := t[id].attempts + 1)
    {
      LookedAtRow(id, t[id], op);
    }
    hide RowStep, ReapRow, ReapedRow;
  }

  lemma LookedAtRow(id: JobId, r: Row, op: Op)
    requires op.Claim?
    ensures op.pick != Some(id) ==> ReapedRow(r, RowStep(id, r, op), op.cap, op.now)
    ensures op.pick == Some(id) && ReapRow(r, op.cap, op.now).state == Queued ==>
      RowStep(id, r, op) == r.(state := Claimed, holder := Some(op.runner),
                               lease := Some(op.now + op.leaseSeconds), attempts := r.attempts + 1)
  {
  }

  lemma PickForLabels(swept: Table, labels: seq<string>, pick: Option<JobId>)
    requires PickOK(swept, Wanted(labels), pick) && "" !in labels
    ensures pick.Some? ==>
      pick.value in swept && swept[pick.value].state == Queued
      && (labels == [] || swept[pick.value].job.server in labels)
    ensures pick.None? ==>
      forall id | id in swept && swept[id].state == Queued :: labels != [] && swept[id].job.server !in labels
  {
    if labels != [] {
      assert labels[0] in labels && labels[0] != "";
      assert labels[0] in Wanted(labels);
    }
    forall id | pick.None? && id in swept && swept[id].state == Queued
      ensures labels != [] && swept[id].job.server !in labels
    {
      assert !Eligible(swept[id], Wanted(labels));
    }
  }

  /**
    Routing, over whole behaviours: a job goes only to a poll whose runner's
    labels, as stored when its request was let in, are none or name the job's
    environment. It then is out to that runner for the edge's lease from the look.
  */
  lemma RoutedByLabels(gate: Gate, edges: seq<Edge>, events: seq<Event>, k: nat)
    requires Behaviour(gate, edges, events) && k < |events| && events[k].Looks? && events[k].pick.Some?
    ensures events[k].poll in edges[k].polls && events[k].pick.value in TableOf(edges[k + 1])
    ensures exists i | 0 <= i < k ::
      var poll, r := edges[k].polls[events[k].poll], TableOf(edges[k + 1])[events[k].pick.value];
      && PollFrom(gate, edges[i], events[i], poll)
      && var labels := Text.NonEmpty(Text.Split(edges[i].runners[poll.runner].labels, ','));
        && (labels == [] || r.job.server in labels)
        && r.state == Claimed && r.holder == Some(poll.runner) && r.lease == Some(events[k].now + gate.leaseSeconds)
  {
    hide Apply, At, Enabled, RunnersAfter, PollsAfter;
    StepsTo(gate, edges, events, k);
    PollHasOrigin(gate, edges, events, k, events[k].poll);
    var poll := edges[k].polls[events[k].poll];
    var i :| 0 <= i < k && PollFrom(gate, edges[i], events[i], poll);
    LookIsForItsLabels(gate, edges[k], events[k], poll.labels);
  }

  // ----- who may enrol -----

  /**
    An enrolment is accepted exactly if its id and its signature under the key it
    presents are good, and that key is the known one or, for a new runner, the
    one the operator trusts, or comes with the operator's token.
  */
  lemma EnrolledExactly(gate: Gate, e: Edge, req: Request)
    requires req.call.Enroll?
    ensures ReplyTo(gate, e, req) == Accepted <==>
      && gate.validId(req.runner) && req.call.publicKey != "" && gate.verifies(req.call.publicKey, req)
      && (req.runner in e.runners ==> e.runners[req.runner].publicKey == req.call.publicKey)
      && (req.runner !in e.runners && req.call.preauthorised.Some? ==>
        req.call.preauthorised.value == req.call.publicKey)
      && (req.runner !in e.runners && req.call.preauthorised.None? ==>
        && gate.enrollToken != "" && req.call.token == gate.enrollToken
        && forall n | 0 <= n < |req.call.token| :: req.call.token[n] as int < 128)
  {
  }

  /** An accepted enrolment stores its key, its labels that are not blank, and the times it was first and last seen. */
  lemma EnrolmentIsStored(gate: Gate, e: Edge, req: Request)
    requires req.call.Enroll? && ReplyTo(gate, e, req) == Accepted
    ensures var runners := After(gate, e, Arrives(req)).runners;
      && runners.Keys == e.runners.Keys + {req.runner}
      && (forall other | other in e.runners && other != req.runner :: runners[other] == e.runners[other])
      && runners[req.runner].publicKey == req.call.publicKey && runners[req.runner].lastSeen == req.now
      && runners[req.runner].enrolledAt ==
        (if req.runner in e.runners then e.runners[req.runner].enrolledAt else req.now)
      && runners[req.runner].labels == Text.Join(Text.Sorted(KeptLabels(req.call.labels)), ',')
  {
  }

  /** A label is kept, in its place, exactly if it is not blank. */
  lemma {:induction false} KeptExactly(labels: seq<string>, x: string)
    ensures x in KeptLabels(labels) <==> x in labels && !Text.AllSpace(x)
    ensures |labels| == 1 && !Text.AllSpace(labels[0]) ==> KeptLabels(labels) == labels
  {
    if labels != [] {
      Text.StripBlank(labels[0]);
      KeptExactly(labels[1..], x);
      assert labels == [labels[0]] + labels[1..];
    }
  }

  /**
    Once enrolled, a runner is let in with every request that verifies under the
    key of its first enrolment, and enrols again with that key at any time.
  */
  lemma EnrolledIsLetIn(gate: Gate, edges: seq<Edge>, events: seq<Event>, i: nat, k: nat, req: Request)
    requires Behaviour(gate, edges, events) && i < k <= |events| && events[i].Arrives? && events[i].req.call.Enroll?
    requires ReplyTo(gate, edges[i], events[i].req) == Accepted
    requires req.runner == events[i].req.runner && gate.verifies(events[i].req.call.publicKey, req)
    ensures !req.call.Enrols() ==> LetIn(gate, edges[k], req) && ReplyTo(gate, edges[k], req) != Unauthorised
    ensures req.call.Enroll? && req.call.publicKey == events[i].req.call.publicKey ==>
      ReplyTo(gate, edges[k], req) == Accepted
  {
    hide Can, CallOf, PollsAfter, At;
    StepsTo(gate, edges, events, i);
    KeyNeverChanges(gate, edges, events, i + 1, k, req.runner);
  }

  // ----- the handlers -----

  /** The edge's tables, seen as the state of the door. */
  ghost function Seen(store: Store, polls: map<nat, Poll>, ticket: nat): Edge
    reads store
  {
    Edge(store.runners, store.log, polls, ticket)
  }

  /** One claim request held open, seen by itself. */
  function ThisPoll(runner: RunnerId, row: RunnerRow): map<nat, Poll> {
    map[0 := Poll(runner, row.publicKey, StoredLabels(row))]
  }

  /** A look that the edge allows this poll, with that answer. */
  ghost predicate LooksFor(gate: Gate, e: Edge, pick: Option<JobId>, now: Time) {
    0 in e.polls && Can(gate, e, Looks(0, pick, now))
  }

  /** A look that found nothing, and then what others committed before the next. */
  ghost predicate LooksInVain(gate: Gate, e: Edge, next: Edge, now: Time, foreign: seq<Op>) {
    && LooksFor(gate, e, None, now) && next.polls == e.polls && next.ticket == e.ticket
    && next.log == After(gate, e, Looks(0, None, now)).log + foreign
  }

  /** A poll up to its last look: each look before it found nothing, and led to the next. */
  ghost predicate KeptLooking(gate: Gate, seen: seq<Edge>, foreign: seq<seq<Op>>, wall: nat -> Time) {
    && |seen| == |foreign| + 1
    && forall i | 0 <= i < |foreign| :: LooksInVain(gate, seen[i], seen[i + 1], wall(i), foreign[i])
  }

  lemma PollEnds(gate: Gate, e: Edge, runner: RunnerId, row: RunnerRow)
    requires e.polls == ThisPoll(runner, row)
    ensures After(gate, e, TimesOut(0)) == e.(polls := map[])
  {
  }

  lemma FirstLook(gate: Gate, e: Edge, wall: nat -> Time)
    ensures KeptLooking(gate, [e], [], wall)
  {
  }

  lemma LooksAgain(gate: Gate, seen: seq<Edge>, foreign: seq<seq<Op>>, wall: nat -> Time, next: Edge, others: seq<Op>)
    requires KeptLooking(gate, seen, foreign, wall)
    requires LooksInVain(gate, seen[|foreign|], next, wall(|foreign|), others)
    ensures KeptLooking(gate, seen + [next], foreign + [others], wall)
  {
    hide LooksInVain;
  }

  class Handlers {
    const store: Store
    const gate: Gate

    constructor (store: Store, gate: Gate)
      ensures this.store == store && this.gate == gate
    {
      this.store := store;
      this.gate := gate;
    }

    /** The caller's row, or None for the flat refusal; an admitted call is noted as a sign of life. */
    method Authenticate(req: Request) returns (row: Option<RunnerRow>)
      requires !req.call.Enrols()
      modifies store`runners
      ensures row.Some? <==>
        && gate.validId(req.runner) && req.runner in old(store.runners)
        && gate.verifies(old(store.runners)[req.runner].publicKey, req)
      ensures row.Some? ==> row.value == old(store.runners)[req.runner]
      ensures store.runners == if row.None? then old(store.runners)
        else old(store.runners)[req.runner := old(store.runners)[req.runner].(lastSeen := req.now)]
    {
      if !gate.validId(req.runner) || req.runner !in store.runners {
        return None;
      }
      var known := store.runners[req.runner];
      if !gate.verifies(known.publicKey, req) {
        return None;
      }
      store.Touch(req.runner, req.now);
      row := Some(known);
    }

    method Enroll(req: Request) returns (reply: Reply)
      requires req.call.Enrols()
      modifies store`runners
      ensures reply == ReplyTo(gate, old(Seen(store, map[], 0)), req)
      ensures store.runners == RunnersAfter(gate, old(Seen(store, map[], 0)), Arrives(req))
    {
      var call := req.call;
      if call.GarbledEnroll? {
        return BadRequest;
      }
      if !gate.validId(req.runner) || call.publicKey == "" {
        return BadRequest;
      }
      if !gate.verifies(call.publicKey, req) {
        return Unauthorised;
      }
      if req.runner in store.runners {
        if store.runners[req.runner].publicKey != call.publicKey {
          return Unauthorised;
        }
      } else if call.preauthorised.Some? {
        if call.preauthorised.value != call.publicKey {
          return Unauthorised;
        }
      } else {
        if gate.enrollToken == "" || call.token == "" {
          return Unauthorised;
        }
        if !Ascii(call.token) || !Ascii(gate.enrollToken) {
          return Crashed;
        }
        if call.token != gate.enrollToken {
          return Unauthorised;
        }
      }
      store.Enrol(req.runner, call.publicKey, KeptLabels(call.labels), req.now);
      reply := Accepted;
    }

    /** Heartbeat, started and result: authenticate, then read the body, then one call of the store. */
    method Serve(req: Request) returns (reply: Reply)
      requires store.Valid() && !req.call.Enrols() && !req.call.OpenPoll?
      modifies store
      ensures store.Valid()
      ensures reply == ReplyTo(gate, old(Seen(store, map[], 0)), req)
      ensures Seen(store, map[], 0) == After(gate, old(Seen(store, map[], 0)), Arrives(req))
    {
      hide Legal, Apply;
      var row := Authenticate(req);
      if row.None? {
        return Unauthorised;
      }
      match req.call
      case Heartbeat =>
        var renewed := store.Renew(req.runner, gate.leaseSeconds, req.now);
        return Accepted;
      case StartedJob(id) =>
        var ok := store.MarkRunning(id, req.runner, req.now);
        return if ok then Accepted else Conflict;
      case ResultJob(id, outcome, note) =>
        var ok := store.Finish(id, req.runner, outcome, note, req.now);
        return if ok then Accepted else Conflict;
      case GarbledResult(_) =>
        return BadRequest;
    }

    /** One look at the queue, for the labels that the row had when the request was let in. */
    method Look(runner: RunnerId, row: RunnerRow, now: Time) returns (got: Option<Job>)
      requires store.Valid()
      modifies store`jobs, store`log
      ensures store.Valid() && LooksFor(gate, old(Seen(store, ThisPoll(runner, row), 1)), Picked(got), now)
      ensures var after := After(gate, old(Seen(store, ThisPoll(runner, row), 1)), Looks(0, Picked(got), now));
        Seen(store, if got.Some? then map[] else ThisPoll(runner, row), 1) == after
      ensures got.Some? ==> StoredLabels(row) == [] || got.value.server in StoredLabels(row)
      ensures got.Some? ==>
        && got.value.id in store.jobs && store.jobs[got.value.id].job == got.value
        && store.jobs[got.value.id].state == Claimed && store.jobs[got.value.id].holder == Some(runner)
        && store.jobs[got.value.id].lease == Some(now + gate.leaseSeconds)
    {
      var labels := StoredLabels(row);
      assert "" !in labels;
      assert labels != [] ==> labels[0] in labels;
      hide Legal, At, Apply, PickOK, Reaped, Wanted, StoredLabels;
      got := store.Claim(runner, labels, gate.leaseSeconds, gate.cap, now);
    }

    /**
      The long poll. It looks at the queue until a look returns a job or the
      deadline has passed at a look. `seen` is the edge at each of its looks: the
      first at the start, and each next one exactly what the look before made of
      it and then what others committed. After the last look, which may take a
      job, nothing follows but the answer, or the end of the wait.
    */
    method LongPoll(runner: RunnerId, row: RunnerRow, wall: nat -> Time, monotonic: nat -> Time,
                    pollTimeout: real, ghost patience: nat)
      returns (got: Option<Job>, ghost seen: seq<Edge>, ghost foreign: seq<seq<Op>>)
      requires store.Valid() && forall n: nat | n >= patience :: monotonic(n) >= monotonic(0) + pollTimeout
      modifies store
      ensures store.Valid() && KeptLooking(gate, seen, foreign, wall)
      ensures seen[0] == old(Seen(store, ThisPoll(runner, row), 1))
      ensures var last := seen[|foreign|];
        && LooksFor(gate, last, Picked(got), wall(|foreign|))
        && var after := After(gate, last, Looks(0, Picked(got), wall(|foreign|)));
          Seen(store, map[], 1) == if got.Some? then after else After(gate, after, TimesOut(0))
      ensures got.Some? ==> StoredLabels(row) == [] || got.value.server in StoredLabels(row)
      ensures got.Some? ==>
        && got.value.id in store.jobs && store.jobs[got.value.id].job == got.value
        && store.jobs[got.value.id].state == Claimed && store.jobs[got.value.id].holder == Some(runner)
        && store.jobs[got.value.id].lease == Some(wall(|foreign|) + gate.leaseSeconds)
      ensures got.None? ==> monotonic(|seen|) >= monotonic(0) + pollTimeout
      ensures forall i | 0 < i < |seen| :: monotonic(i) < monotonic(0) + pollTimeout
    {
      hide Legal, At, Apply, PickOK, Reaped, Wanted, StoredLabels, KeptLooking, LooksFor, ThisPoll, After, Can;
      var deadline := monotonic(0) + pollTimeout;
      var n: nat := 0;
      ghost var polls := ThisPoll(runner, row);
      seen, foreign := [Seen(store, polls, 1)], [];
      assert KeptLooking(gate, seen, foreign, wall) by { FirstLook(gate, seen[0], wall); }
      while true
        invariant store.Valid() && |seen| == n + 1 && |foreign| == n && KeptLooking(gate, seen, foreign, wall)
        invariant seen[0] == old(Seen(store, ThisPoll(runner, row), 1)) && seen[n] == Seen(store, polls, 1)
        invariant forall i | 0 < i <= n :: monotonic(i) < deadline
        decreases if n <= patience then patience - n + 1 else 0
      {
        got := Look(runner, row, wall(n));
        if got.Some? {
          return;
        }
        n := n + 1;
        if monotonic(n) >= deadline {
          PollEnds(gate, Seen(store, polls, 1), runner, row);
          return;
        }
        ghost var others := store.Others();
        LooksAgain(gate, seen, foreign, wall, Seen(store, polls, 1), others);
        seen, foreign := seen + [Seen(store, polls, 1)], foreign + [others];
      }
    }
  }
}
