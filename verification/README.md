# The leased job queue and the protocol around it

Test servers poll one edge for work. The edge keeps two SQLite tables, hands a
queued job to a server under a lease, takes it back when the lease lapses, and
records a result only from the holder. This project models that queue, the edge
handlers that drive it, the loop of a test server, the byte strings that both
sides sign, and the edit throttle of the Slack notifier, and proves what they
keep over every run, every interleaving and every clock.

## Layers

| module | what it holds |
|---|---|
| `Queue` | the jobs table as a value and each call of the store as one atomic step |
| `Runs` | any sequence of calls with any stamps: invariants, conservation, the measure, tenures |
| `Leases` | recovery of a silent holder's job; safety of a live one under clock skew and lost heartbeats |
| `Reaping` | lazy reaping (inside `claim` only) against eager reaping |
| `Fairness` | no starvation, with the exact bound |
| `Stores` | the `Store` class, statement by statement over its rows; a ghost log ties every method to a run |
| `Transactions` | clients, the write lock, the statements of a claim, commit and rollback, and a clock |
| `Agents` | the loops of a test server against a store: retries, the report and the messages of one job, the heartbeat thread, draining |
| `Fleets` | the edge with any number of test servers, lost requests, lost replies and free heartbeats |
| `Edges` | enrolment, authentication, the long poll, and the handlers as methods on a `Store` |
| `Routing`, `Signing`, `Notifier`, `Text` | labels, signed strings, the throttle, and the text functions they use |

Stamps and leases are reals, and a stamp is a parameter of its call. Nothing
assumes that stamps come in commit order; where a theorem needs a clock, it says
how far a stamp may lag behind its commit.

## Where the code and its comments differ

The model follows the code.

- `edge/README.md:79` says a job is requeued up to the cap. `claim` counts
  dispatches and never tests the cap, so a job is dispatched at most
  N = max(1, max_attempts) times and requeued at most N - 1 times
  (`Runs.RankBound`); both bounds are reached (`Runs.RankBoundIsExact`).
- `edge/edge_server/store.py:25-28` says that only a server missing four
  heartbeats in a row can lose its job. The heartbeat thread waits `interval` and
  then blocks in a call for up to `timeout` before it waits again
  (`test-server/test_server/agent.py:228-232`, `test-server/test_server/client.py:120`),
  so lost heartbeats are spaced by both, and the next one may take effect only
  at the end of its call. With stamps that lag commits by up to `skew` (the wait
  for the write lock, `edge/edge_server/store.py:121`), losing k in a row is harmless if
  (k + 1) * (interval + timeout) + timeout + skew <= lease
  (`Leases.LostHeartbeatsHarmless`), and only if (`Leases.LostHeartbeatsIsTight`).
  With an interval of 30 s, calls that block for 15 s, a skew of 10 s and a lease
  of 120 s, that is one loss: k = 1 needs 115 s, and k = 2 needs 160 s.
- `edge/edge_server/store.py:74-75` says a reap moves rows only between queued
  and claimed. It also takes running rows, and it abandons (`:299-311`).
- `Store.enrol` would replace the key of a known runner; only the handler
  prevents it (`Edges.KeyNeverChanges`).
- A holder whose lease has lapsed is heard as long as nobody has reaped. Lazy
  and eager reaping agree exactly when that does not happen
  (`Reaping.AnswersAgreeExactly`, `Reaping.RenewsAgreeExactly`).
- A heartbeat renews every row under the runner's id, so it also keeps alive a
  row whose dispatch reply or last result was lost: nobody works on it, and
  nobody else can get it, for as long as the heartbeats go on
  (`Fleets.OrphanStaysOut`; `Fleets.HoldsOnlyExactly` names the two losses).
  Recovery is therefore stated for a holder that is silent.
- `test-server/test_server/agent.py:118` says that a run never raises into the
  poll loop, and `src/slack_runtests/slack.py:211-214` that a reporting failure
  never fails a run. The call to Slack catches three kinds of error
  (`src/slack_runtests/slack.py:210`); any other, such as that of a connection dropped midway,
  leaves the notifier, and the run with it, before the result is posted. So do
  output that is no text, and a report whose counts are no numbers
  (`test-server/test_server/agent.py:162-182`). `Agents.EscapesExactly` says when an error escapes.
- A result whose body is not JSON is answered 400 only after its sender was
  noted as seen (`edge/edge_server/app.py:417-425`), so it is the one refusal
  that leaves a mark (`Edges.RefusedChangesNothing`).
- Verification does not look for newlines. A signed request has a twin, a
  different request that signs the same bytes, exactly if one of its own fields
  holds a newline (`Signing.TwinExactly`); Slack's string splits in one way
  only because `int()` accepts no colon (`Signing.ColonsConfuse`). As `int()`
  strips newlines, a twin can be accepted (`Signing.TwinIsAccepted`), but not
  among requests that HTTP carries, where only paths can hold newlines
  (`Signing.SignatureIsForOneRequest`).
- `src/slack_runtests/identity.py:157` promises False for every failure. A
  timestamp of several hundred digits makes `now - int(timestamp)` raise instead
  (`:166`, `:205`, and `src/slack_runtests/signature.py:40`), and so does a
  signature outside ASCII in `src/slack_runtests/signature.py:51`; the model answers no to both. An
  enrolment token outside ASCII raises too, and that is modelled (`Edges.EnrolReply`).

## Model

| member | source | states |
|---|---|---|
| Queue.ApplyKeepsOK | edge/edge_server/store.py:170-311 | every call keeps every row well formed: leased iff claimed or running, no holder iff queued, finish time and counts iff done or failed, done iff exit code zero, running only if started, dispatched at least once unless queued |
| Runs.ReachableOK | edge/edge_server/store.py:170-322 | every row of every table that any run reaches is well formed |
| Runs.RowsStay | edge/edge_server/store.py:178-187 | once enqueued, a job keeps its row, its payload and its `created_at` for good, across requeues |
| Runs.EnqueueIsKept | edge/edge_server/store.py:178-187 | an accepted enqueue stores the payload and the stamp it was given, and the row has them for good |
| Runs.RowWasEnqueued | edge/edge_server/store.py:170-187 | every row comes from an accepted enqueue of exactly its payload and stamp |
| Runs.ClaimReturnsPayload | edge/edge_server/store.py:211-233 | a claim hands out the very payload that was enqueued under that id |
| Runs.EnqueuedOnce | edge/edge_server/store.py:171-187 | a repeated enqueue of one id answers no and changes nothing, whatever happened to the job in between |
| Runs.TerminalForever | edge/edge_server/store.py:271-311 | a done, failed or abandoned row never changes again in any column |
| Runs.AtMostOneFinish | edge/edge_server/store.py:271-279 | at most one post of a result is ever accepted for a job |
| Runs.RecordedResult | edge/edge_server/store.py:270-279 | the accepted post decides state, outcome, summary, finish time and holder of the row, permanently |
| Runs.Conservation | edge/edge_server/store.py:222-311 | the attempts column equals the dispatches so far; dispatches equal requeues plus one unless queued; one finish iff finished, one abandon iff abandoned; starts never exceed dispatches |
| Runs.RankDrops | edge/edge_server/store.py:223-311 | three per dispatch left plus a phase is a measure that every transition of a row lowers by at least one per transition |
| Runs.RankBound | edge/edge_server/store.py:223-311 | under one cap, in a run of any length and under any clock, a job makes at most 3N transitions, at most N dispatches and N - 1 requeues, N = max(1, cap) |
| Runs.RankBoundIsExact | edge/edge_server/store.py:222-311 | for every cap some run reaches all of these bounds at once |
| Runs.HolderIsLastClaimer | edge/edge_server/store.py:222-226 | the recorded holder is the runner of the latest claim, and while the job is out it has been with that claim without a break |
| Runs.AcceptedIsCurrent | edge/edge_server/store.py:243-279 | an accepted start or result comes from the runner of the latest claim, still within that tenure |
| Runs.TenureStep | edge/edge_server/store.py:240-311 | a tenure ends only by its holder's own result or by a reap stamped strictly past the lease on record |
| Runs.StartIsRecorded | edge/edge_server/store.py:240-304 | `started_at` is the stamp of the latest accepted start, requeues and new dispatches notwithstanding, and a job that is out is running exactly if it was started since its latest dispatch |
| Runs.SeparatedTenures | edge/edge_server/store.py:210-304 | between two successive dispatches of a job there is a reap stamped strictly above the first tenure's last lease; before it the first runner held the job, after it the job is queued until the second dispatch |
| Runs.FormerHolderRefused | edge/edge_server/store.py:243-279 | from that reap on, the first holder's starts and results are refused and change nothing until it claims the job again |
| Runs.OnlyFirstArrivalCounts | edge/edge_server/store.py:271-279 | of the posts of one result by one runner only the first to arrive can be accepted, whatever others do in between |
| Runs.NoJobLost | edge/edge_server/store.py:343-346 | the six per-state counts always sum to the number of accepted enqueues |
| Leases.LeaseStands | edge/edge_server/store.py:291-311 | a tenure whose holder is silent stands, with the same lease, while no reap is stamped above it |
| Leases.Recovery | edge/edge_server/store.py:205-311 | after a holder falls silent its tenure ends at a call if and only if that call reaps above the lease: below the cap the job is queued or goes straight to the caller, at the cap it is abandoned, keeping its holder and without a finish time |
| Leases.LeaseIsLastWrite | edge/edge_server/store.py:222-289 | the lease of a job that is out is the stamp plus the lease of its latest dispatch, or of its holder's latest heartbeat since |
| Leases.LeaseSafety | edge/edge_server/store.py:21-28 | if stamps lag commits by at most the skew and the holder's lease writes commit at gaps of at most lease - skew, the job is never requeued, abandoned or reassigned |
| Leases.LeaseSafetyIsTight | edge/edge_server/store.py:205-210 | any gap above lease - skew, however little, is enough for some run to take the job away |
| Leases.LostHeartbeatsHarmless | test-server/test_server/agent.py:219-232 | with a thread that waits, calls and waits again, losing up to k calls in a row is harmless whenever (k + 1) * (interval + timeout) + timeout + skew <= lease |
| Leases.LostHeartbeatsIsTight | test-server/test_server/agent.py:219-232 | whenever that inequality fails, for any interval, timeout, k, skew and lease, such a thread that loses at most k in a row can have its job taken away |
| Reaping.ReapTwice | edge/edge_server/store.py:299-311 | two reaps, in either stamp order, are one reap at the later stamp |
| Reaping.LazyEqualsEager | edge/edge_server/store.py:210 | reaps inserted anywhere in a run change no answer and no table up to a final reap, given stamps that do not go back, one cap, and no lapsed holder speaking |
| Reaping.AnswersAgreeExactly | edge/edge_server/store.py:240-279 | for a start or a result the two disciplines answer alike if and only if no lapsed holder is speaking |
| Reaping.RenewsAgreeExactly | edge/edge_server/store.py:281-289 | for a heartbeat they leave the same table if and only if no row it renews has lapsed |
| Fairness.ChancesBounded | edge/edge_server/store.py:211-227 | while a job waits, the claims that could have taken it plus the dispatches still left to the open jobs ahead of it never exceed what those had left at the start plus N for each job that arrived with a stamp no later than its own |
| Fairness.NoStarvation | edge/edge_server/store.py:211-227 | once more claims have been made by runners that could take a queued job than the open jobs ahead of it had dispatches left, plus N for each later arrival stamped no later than it, one of those claims has returned it, across requeues and under any clock |
| Fairness.NoStarvationIsExact | edge/edge_server/store.py:211-227 | under every cap, with a job ahead and any number of such late arrivals, some run makes exactly that many claims and the job still waits |
| Stores.Store.Enqueue | edge/edge_server/store.py:170-187 | inserts a queued row with this payload and stamp and nothing else set, or answers no and changes nothing if the id is known |
| Stores.Store.RequeueLapsed | edge/edge_server/store.py:299-304 | the first bulk update, as a scan: requeues exactly the lapsed rows below the cap |
| Stores.Store.AbandonLapsed | edge/edge_server/store.py:305-311 | the second bulk update, as a scan: abandons exactly the lapsed rows at the cap |
| Stores.Store.ReapBoth | edge/edge_server/store.py:291-311 | the two updates one after the other are one simultaneous reap |
| Stores.Store.Reap | edge/edge_server/store.py:313-322 | appends one atomic reap to the history: a claimed or running row strictly past its lease loses holder and lease and is queued below the cap, or is abandoned with its summary at it; no other column and no other row changes |
| Stores.Store.SelectQueued | edge/edge_server/store.py:211-213 | every queued row once and nothing else, oldest first |
| Stores.Store.ClaimRows | edge/edge_server/store.py:210-238 | the claim loop: the conditional update always counts one row, and what is returned is a queued eligible row of least `created_at`, or None exactly when no eligible row is queued |
| Stores.Store.Claim | edge/edge_server/store.py:189-238 | one atomic step of the history: reaps, then hands out a queued job that the given labels allow, with none older among those they allow, or None exactly when they allow none; the job is a payload that was enqueued; beyond the reap only that one row changes, in state, holder, lease and attempts |
| Stores.Store.MarkRunning | edge/edge_server/store.py:240-247 | accepts a start only from the holder of a claimed row; a refusal changes nothing |
| Stores.Store.Finish | edge/edge_server/store.py:249-279 | accepts a result only from the holder of a claimed or running row; a refusal changes nothing |
| Stores.Store.Renew | edge/edge_server/store.py:281-289 | extends every row the runner holds and no other, and answers how many they are |
| Stores.Store.Counts | edge/edge_server/store.py:343-346 | the states that occur, each with the number of its rows |
| Stores.Store.Enrol | edge/edge_server/store.py:127-136 | writes key, sorted labels and sign of life, keeping the first enrolment time; replaces a known key |
| Stores.Store.Touch | edge/edge_server/store.py:144-147 | a sign of life for a known runner, nothing for an unknown one |
| Stores.FirstIsOldest | edge/edge_server/store.py:211-221 | the first eligible row of the ordered select is an oldest eligible row of the table |
| Transactions.RowcountIsOne | edge/edge_server/store.py:222-227 | inside the write lock the conditional update of an eligible row always takes, so the test for one row never fails |
| Transactions.CommitIsAtomic | edge/edge_server/store.py:207-238 | what a transaction commits is exactly one atomic claim or reap that the queue allowed at that moment |
| Transactions.StepRefines | edge/edge_server/store.py:207-289 | every single statement, lock, commit, rollback or autocommit of any client keeps the committed table equal to the atomic machine's |
| Transactions.EveryInterleavingRefines | edge/edge_server/store.py:12-19 | every interleaving of any number of clients is a legal run of the atomic machine in commit order |
| Transactions.CommitIsAsAsked | edge/edge_server/store.py:205-238 | every commit adds one call to the history, a claim with the runner, labels, lease, cap and stamp of a request that arrived before, or the sweep it asked for |
| Transactions.AutocommitIsAsMade | edge/edge_server/store.py:170-289 | every other call is committed at once, exactly as it was made |
| Transactions.RollbackLeavesNoTrace | edge/edge_server/store.py:235-237 | a transaction that rolls back leaves the committed table and history as they were when it began |
| Transactions.NeverHandedOutTwice | edge/edge_server/store.py:14-16 | in every interleaving, two committed dispatches of one job have a reap past the lease between them |
| Transactions.InterleavingIsTimed | edge/edge_server/store.py:121-208 | if nobody waits for the lock and works longer than the skew, the committed run has stamps that lag commits by at most the skew |
| Transactions.LeaseSafetyInterleaved | edge/edge_server/store.py:21-28 | lease safety over statements, locks and clocks |
| Transactions.LostHeartbeatsInterleaved | edge/edge_server/store.py:21-28 | the bound on lost heartbeats over statements, locks and clocks |
| Agents.FinishTwice | edge/edge_server/store.py:271-279 | posting again after a first post of the same runner changes nothing, on any table |
| Agents.SafeResult | test-server/test_server/agent.py:202-216 | three tries over any pattern of lost requests and replies leave the table as the single post that arrived first would, or untouched if none arrived |
| Agents.CountsFromJunit | test-server/test_server/agent.py:81-114 | failed is the sum of failures and errors, skipped the sum of skipped, and passed what is left of the tests, if any, with zeros for an unreadable report |
| Agents.SuiteAdds | test-server/test_server/agent.py:99-106 | a suite adds to each sum the number whose decimal text its attribute holds, and nothing if that is absent or empty |
| Agents.UncountableExactly | test-server/test_server/agent.py:99-106 | counting raises if and only if some attribute is there, is not empty and is no number |
| Agents.Say | test-server/test_server/reporter.py:33-87 | a message on a notifier of its own raises if and only if its call to Slack does, or the first one names a field that the job lacks |
| Agents.Execute | test-server/test_server/agent.py:117-199 | posts the messages, the start and the result in the order of the code; the table is as after the reported start and the first post of the result that arrived; whether an error escapes is what `Agents.EscapesExactly` spells out |
| Agents.EscapesExactly | test-server/test_server/agent.py:117-199 | an error escapes if and only if the job lacks a field that the first message names, a Slack call of a message that the job comes to drops, or a suite that ran to its end printed no text or counted in no numbers |
| Agents.ClosedExactly | test-server/test_server/agent.py:117-216 | a job the server held is closed if and only if no error escapes and some try arrives; otherwise it stays held under the same lease; a reported start sets the start time of a claimed row, also when the suite is missing; no other row changes |
| Agents.RecordedExactly | test-server/test_server/agent.py:129-199 | a closed job records, ending by ending, 4 and zeros for a refused job, 5 and zeros for a missing suite, 3 and the measured time when killed, 3 and none when it could not start, and otherwise the suite's exit code, the measured time and the counts of its report; with its note, its stamp and its runner |
| Agents.HeartbeatLoop | test-server/test_server/agent.py:219-232 | the thread, with everybody else using the store at any moment, leaves a history whose stamps lag its commits by at most the skew, with calls spaced by a wait and a blocked call, each of which that is not lost is a renew of this runner for this lease, committed while the call was out |
| Agents.ThreadProtects | test-server/test_server/agent.py:219-232 | in the history that such a thread leaves, a job claimed while it runs is kept through every call if (lost + 1) * (interval + timeout) + timeout + skew <= lease |
| Agents.RoundCloses | edge/edge_server/store.py:189-279 | a claim followed by its result closes that row with that result, leaves closed rows alone and leaves fewer rows open |
| Agents.Drain | test-server/test_server/agent.py:276-287 | claiming and finishing until told None stops; every job worked has its own outcome recorded, every row is then closed or out under a lease not below the last stamp; if nobody held anything, exactly the waiting jobs were worked, oldest first |
| Fleets.StepKeepsOK | test-server/test_server/agent.py:276-287 | every step of every server keeps: the execution at hand began with a claim of its own and the server has claimed nothing since |
| Fleets.Fencing | edge/edge_server/store.py:262-279 | an accepted start or result belongs to the execution that the job's latest claim started, whatever requests and replies were lost |
| Fleets.EveryAcceptedResultIsCurrent | edge/edge_server/store.py:262-279 | the same for every accepted result of every interleaving of any number of servers |
| Fleets.CallsAreAsMade | test-server/test_server/client.py:119-149 | a step whose request is not lost makes exactly one call, about the server's own job and with what the step says |
| Fleets.ServersAreAsTold | test-server/test_server/agent.py:202-287 | a server takes up the job of a reply, puts it down after a post answered with yes or its third post, and changes in no other way |
| Fleets.PostIsRecorded | test-server/test_server/agent.py:202-216 | what an accepted post says is what the edge shows for the job in every later state of the fleet |
| Fleets.HoldsOnlyExactly | test-server/test_server/agent.py:209-287 | what the edge records a server as holding stays within the one job it works on if and only if the step loses neither a dispatch reply nor the last post of a result still wanted |
| Fleets.AlwaysHoldsOnly | test-server/test_server/agent.py:13-16 | so over a whole behaviour without such losses, no server ever holds a second row |
| Fleets.HealthyServerIsHeard | test-server/test_server/agent.py:219-232 | a server whose lease writes keep the safe rhythm still holds its job when it first posts |
| Fleets.OrphanStaysOut | edge/edge_server/store.py:281-289 | over whole behaviours, a row whose dispatch reply or last result was lost stays out to its server while that server's lease writes keep the safe rhythm, and the server never works on it |
| Edges.EdgeRunIsLegal | edge/edge_server/app.py:340-439 | whatever requests the edge serves, its queue goes through a legal run |
| Edges.KeyNeverChanges | edge/edge_server/app.py:296-319 | after first enrolment a runner's key and enrolment time never change, over any sequence of requests |
| Edges.KeyHasOrigin | edge/edge_server/app.py:286-319 | every known key came from a first enrolment signed by that very key and either pre-authorised or presented with the token |
| Edges.EnrolledExactly | edge/edge_server/app.py:278-319 | an enrolment is accepted if and only if its id is well formed, it verifies under the key it presents, and that key is the known one or, for a new runner, the pre-authorised one, or comes with the operator's token |
| Edges.EnrolmentIsStored | edge/edge_server/app.py:280-319 | an accepted enrolment stores its key, its labels that are not blank in order, and the times the runner was first and last seen, and touches no other runner |
| Edges.KeptExactly | edge/edge_server/app.py:280 | a label is kept if and only if it is not blank |
| Edges.EnrolledIsLetIn | edge/edge_server/app.py:109-137 | once enrolled, a runner is let in with every request that verifies under the key of its first enrolment, and may enrol again with that key at any time |
| Edges.RefusedChangesNothing | edge/edge_server/app.py:109-137 | a request answered 400, 401 or 500 changes nothing, unless it is a result with a body that is not JSON from a runner that was let in; that one changes only when its sender was last seen |
| Edges.CallHasOrigin | edge/edge_server/app.py:340-439 | every committed call stems from one event that the edge let through |
| Edges.HeardExactly | edge/edge_server/app.py:340-439 | of the requests let in, a heartbeat is accepted always, a start exactly from the holder of a claimed job, a result exactly from the holder of one that is out, and the others are answered 409 |
| Edges.ConflictChangesNoJob | edge/edge_server/app.py:397-439 | a request answered 409 changes no job |
| Edges.ResultIsRecorded | edge/edge_server/app.py:427-439 | an accepted result is recorded as posted in every later state of the edge: outcome, note, stamp and runner, DONE if and only if its exit code is zero |
| Edges.StartIsRecorded | edge/edge_server/app.py:397-406 | an accepted start leaves the job running since the stamp of the start, and changes nothing else |
| Edges.HeartbeatExtends | edge/edge_server/app.py:340-358 | a heartbeat let in gives every row its runner holds the edge's lease from its stamp, and changes nothing else |
| Edges.SlackJobIsQueued | edge/edge_server/app.py:213-223 | a job queued from Slack under a new id has its payload and stamp in every later state |
| Edges.LookIsForItsLabels | edge/edge_server/app.py:382-388 | a look reaps with the edge's cap and returns a job that the poll's labels allow, then claimed for its runner and the edge's lease, or none only if they allow none |
| Edges.RoutedByLabels | edge/edge_server/app.py:374-391 | over whole behaviours, a job goes only to a poll whose runner had, as stored when its request was let in, no labels or the job's environment among them |
| Edges.AcceptedResultIsAuthentic | edge/edge_server/app.py:409-439 | an accepted result verified under the runner's first trusted key, its job was handed to a request of the same runner under the same key, and nobody else has had the job since |
| Edges.Handlers.Authenticate | edge/edge_server/app.py:109-137 | admits exactly well-formed known runners whose request verifies under the stored key, and notes only those as seen |
| Edges.Handlers.Enroll | edge/edge_server/app.py:259-337 | answers and updates the runners table as the edge's transition says, on every branch, the token comparison that raises included |
| Edges.Handlers.Serve | edge/edge_server/app.py:340-439 | heartbeat, started and result, the last also with a body that is not JSON, take exactly the edge's transition, and reply as it says |
| Edges.Handlers.LongPoll | edge/edge_server/app.py:361-394 | the history is this poll's looks with what others committed between them; every look is the edge's transition, all but the last find nothing, the last answers the job it took, which the row's labels allow and which is out to the runner for the edge's lease; a poll without one ends by the time-out and only past its deadline |
| Routing.LabelsSurviveExactly | edge/edge_server/app.py:382 | sorting, joining, storing and splitting gives back the same label set if and only if no label holds a comma |
| Routing.StoredInOrder | edge/edge_server/store.py:135 | what is stored are the labels, each as often as given, in code-point order |
| Routing.SettingMeans | test-server/test_server/config.py:38-42 | labels written with commas between and whitespace around them are read as those labels in that order, blanks dropped |
| Routing.SettingSurvives | test-server/test_server/config.py:38-42 | any RUNNER_LABELS setting reaches the claim filter as the same set of labels |
| Routing.ShownIsRouted | edge/edge_server/app.py:229-230 | the rule shown to the Slack user holds for a server and a job exactly when that server's claim would be given that job were it the only one queued |
| Routing.SettingRoutes | test-server/test_server/config.py:34-42 | a job is eligible for a server exactly when its setting names the environment or names none |
| Signing.AcceptedHasNoColon | src/slack_runtests/signature.py:38-42 | a timestamp that `int()` accepts holds no colon |
| Signing.IntReadsDecimals | src/slack_runtests/identity.py:166 | `int()` of a number's decimal text is that number, also with a plus and with whitespace around, and with a minus its negative |
| Signing.UnderscoresAreSkipped | src/slack_runtests/identity.py:166 | single underscores between digits do not count, and any other character or placement is refused |
| Signing.FreshExactly | src/slack_runtests/identity.py:164-170 | a decimal timestamp of t is fresh if and only if the clock is between t - maxAge and t + maxAge, both ends included |
| Signing.CanonicalText | src/slack_runtests/identity.py:135-138 | a request signs the five lines v1, upper-cased method, path, timestamp and digest, in that order |
| Signing.RequestsDecodeUniquely | src/slack_runtests/identity.py:135-138 | two requests sign the same bytes if and only if upper-cased method, path, timestamp and digest agree: a one-line request against any other, and requests that HTTP carries whatever their paths hold |
| Signing.TwinExactly | src/slack_runtests/identity.py:135-138 | some different request for the same body signs the same bytes if and only if the method, path or timestamp holds a newline |
| Signing.RepliesDecodeUniquely | src/slack_runtests/identity.py:186-190 | two replies sign the same bytes if and only if timestamp and digest agree: between real digests for any timestamps, and for a one-line reply against any string in the place of a digest |
| Signing.RequestIsNeverReply | src/slack_runtests/identity.py:135-190 | no request signs the bytes of a reply, whatever the fields hold |
| Signing.NewlinesConfuse | src/slack_runtests/identity.py:138 | with a newline in the path two different requests sign the same bytes |
| Signing.AcceptedAgainExactly | src/slack_runtests/identity.py:145-221 | a signature accepted for a request is accepted for any other exactly if that one is fresh and signs the same bytes, and never for a reply |
| Signing.SignatureIsForOneRequest | src/slack_runtests/identity.py:145-221 | a signature accepted for a request is accepted for another if and only if it is the same request and fresh: for any other if the first is one-line, and whatever both paths hold if HTTP carries both |
| Signing.SignedRequestIsAccepted | src/slack_runtests/identity.py:145-183 | a request whose five lines are correctly signed, stamped with the decimal text of t, is accepted exactly from t - maxAge to t + maxAge |
| Signing.AcceptedMeansSigned | src/slack_runtests/identity.py:145-183 | an accepted request has a number for a timestamp, within maxAge of the clock, a 32-byte key and a 64-byte signature that checks on those five lines |
| Signing.SignedReplyIsAccepted | src/slack_runtests/identity.py:193-221 | the same for a reply and its three lines |
| Signing.AcceptedReplyMeansSigned | src/slack_runtests/identity.py:193-221 | and nothing else is accepted as a reply |
| Signing.TwinIsAccepted | src/slack_runtests/identity.py:161-183 | without that, a request whose path ends in a newline is accepted exactly when the one with that newline before its timestamp is, under the same signature |
| Signing.ReplayWindow | src/slack_runtests/identity.py:164-170 | a captured request is accepted again exactly while fresh, over a span of at most twice the maximal age |
| Signing.SlackDecodesUniquely | src/slack_runtests/signature.py:38-46 | with accepted timestamps the base string splits in one way only |
| Signing.ColonsConfuse | src/slack_runtests/signature.py:46 | without that guard a colon can move between timestamp and body |
| Signing.SlackSignatureIsForOneRequest | src/slack_runtests/signature.py:18-64 | what the signer makes for one timestamp and body is accepted for exactly that pair, while fresh |
| Signing.SlackRequestIsAccepted | src/slack_runtests/signature.py:18-64 | a request signed over v0, the decimal text of t and its body is accepted exactly from 300 seconds before t to 300 after |
| Notifier.SlackNotifier.DoPost | src/slack_runtests/slack.py:223-235 | with a token, the id kept is Slack's if it gave one, else the one at hand, else empty; without one, the id at hand or the dry-run id of the start in milliseconds; a call to Slack that raises leaves it as it was |
| Notifier.SlackNotifier.DoUpdate | src/slack_runtests/slack.py:237-264 | throttled exactly for an unforced edit within five seconds of the last one, and then no field changes; without a message it posts; an edit sets only the time of the last edit, and sets it even if its call to Slack raises |
| Notifier.SlackNotifier.Finish | src/slack_runtests/slack.py:277-306 | the final summary is never throttled, and raises exactly if its call to Slack does |
| Notifier.IdIsKept | src/slack_runtests/slack.py:223-264 | edits go to the message kept, no edit and no post without a new name changes it, and a post that Slack names replaces it |
| Notifier.UnforcedEditsKeepDistance | src/slack_runtests/slack.py:251-254 | in any sequence of calls an unforced edit, answered or not, comes at least five seconds after every earlier edit, forced or not |
| Notifier.ThrottleBound | src/slack_runtests/slack.py:58-61 | any window of length W holds at most floor(W / 5) + 1 unforced edits |

## Left out

- HTTP plumbing, JSON, FastAPI and httpx, reply signatures in transit, and the pinned edge key of the client; a handler is a step on the store.
- Ed25519 (section 5.1 of RFC 8032), HMAC (section 2 of RFC 2104), SHA-256 and base64 are uninterpreted; hypotheses name what is used of them. Text stands for its UTF-8 encoding.
- SQLite itself: one writer at a time, atomic statements and a rollback that restores are taken as given. Rows of equal `created_at` may come in any order.
- The order in which the loops of `Stores` visit rows is arbitrary, and `SelectQueued` sorts by insertion; SQLite's own plan is not modelled.
- Slack's slash command up to the enqueue (parsing, the gate, the job id derived from the trigger), its reply texts, the runner listing and its `online` window, `recent`, `last_for` and the admin view.
- The V1 and V2 runners and `api.py`, pytest, the XML of its report, the Slack texts of the reporter, channel normalisation, key files, configuration loading, Docker and logging.
- The back-off between failed polls and the retries of enrolment, which only delay a step.
- Requests that take effect after the client has given up on them, and a server restarted under the same id while an old execution goes on: `Fleets` takes calls to be synchronous, as the fencing argument needs.
- Agents.RecordedExactly: the wording of the summary column of each ending is a parameter.
- Agents.Execute: which texts `float()` accepts and which output decodes are left open, as is an error from the XML parser other than a parse error. Errors other than a lost or refused call out of the client's own code, such as a reply with a timestamp of several hundred digits, are not among the endings.
- Signing.ReplayWindow: where verification raises, the model's verdict is no; so it is for Signing.SlackSignatureIsForOneRequest.
- The summary's cut at 2000 characters, and JSON bodies of the wrong shape: a field that does not convert to a number, or a body that is no object, raises an error in the handler.
- Leases.LostHeartbeatsHarmless: `timeout` is the longest that one heartbeat call blocks, whatever the HTTP client makes of its setting of 15 s, and the thread is scheduled without delay. A call that takes effect after the thread has given up on it counts as lost.
- Floats are reals, so rounding in lease sums and durations is not modelled.
- Signing.AcceptedHasNoColon: `int()` is modelled for ASCII digits, with the whitespace of `str.strip`, without Python's limit on the number of digits and without other scripts' digits, none of which is a colon.
- Signing.RequestsDecodeUniquely: upper-casing is modelled for ASCII letters.
- Notifier.SlackNotifier.DoPost: the dry-run id is modelled for clocks that start at zero or later; what is printed or sent to Slack appears only as the id in the reply, and the errors that the call does and does not catch only as an answer without one and as a raise.
- Edges.Handlers.LongPoll: what others do between two looks is any calls that keep the store valid (`Stores.Store.Others`), and the poll stops because its clock passes the deadline after finitely many looks.
- Edges.AcceptedResultIsAuthentic: one edge process that starts on an empty database; the checks of the door are fixed for its lifetime, while pre-authorised keys may change between enrolments.
- Agents.Drain: the suite's outcome is a function of the job, and the posts of this loop all arrive; lost posts are the matter of `Agents.SafeResult`.
