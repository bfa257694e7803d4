/**
  The notifier that posts one Slack message and edits it, with its edit throttle.
  Times are readings of a monotonic clock that starts at zero.
*/
module Notifier {
  import opened Options
  import Text

  const MIN_SECONDS_BETWEEN_EDITS := 5.0

  /** The fields that calls change: the message's id, the last edit, the start of the run. */
  datatype Fields = Fields(ts: Option<string>, lastEdit: real, started: real)

  /**
    What comes of a call to Slack: its answer, with the message's id if there is
    one in it, or an error. The errors that the call catches answer without an
    id; `Dropped` stands for those it does not, such as that of a connection
    dropped midway.
  */
  datatype Ack = Answer(ts: Option<string>) | Dropped

  /** `progress` is an unforced update and `finish` a forced one. */
  datatype Call =
    | Start(now: real, ack: Ack)
    | Post(now: real, ack: Ack)
    | Update(now: real, force: bool, ack: Ack)

  /** How a call ends. The two `Raised` ones leave with an error, before or after the time of the edit was set. */
  datatype Outcome = Posted(ts: string) | Edited(ts: string) | Throttled | PostRaised | EditRaised {
    /** An edit that reached Slack's door, whether Slack answered or not. */
    predicate Tried() { Edited? || EditRaised? }
    predicate Raised() { PostRaised? || EditRaised? }
  }

  /** Whole milliseconds on a clock that starts at zero. */
  function Millis(started: real): (ms: nat)
    ensures started >= 0.0 ==> ms as real <= started * 1000.0 < ms as real + 1.0
  {
    if started >= 0.0 then (started * 1000.0).Floor else 0
  }

  /** The stand-in id of a message that is only printed. */
  function DryRunId(started: real): string { "dry-run-" + Text.Decimal(Millis(started)) }

  /** Python's `or` on texts: an absent or empty text gives way. */
  function Or(a: Option<string>, b: string): string {
    if a.Some? && a.value != "" then a.value else b
  }

  /** A console-only notifier makes no call, so nothing drops. */
  predicate Drops(enabled: bool, ack: Ack) { enabled && ack.Dropped? }

  function IdAfterPost(enabled: bool, f: Fields, ack: Ack): string
    requires !Drops(enabled, ack)
  {
    if enabled then Or(ack.ts, Or(f.ts, "")) else Or(f.ts, DryRunId(f.started))
  }

  function Posting(enabled: bool, f: Fields, ack: Ack): (Fields, Outcome) {
    if Drops(enabled, ack) then (f, PostRaised)
    else
      var ts := IdAfterPost(enabled, f, ack);
      (f.(ts := Some(ts)), Posted(ts))
  }

  function Step(enabled: bool, f: Fields, call: Call): (Fields, Outcome) {
    match call
    case Start(now, ack) => Posting(enabled, f.(started := now), ack)
    case Post(_, ack) => Posting(enabled, f, ack)
    case Update(now, force, ack) =>
      if f.ts.None? then Posting(enabled, f, ack)
      else if !force && now - f.lastEdit < MIN_SECONDS_BETWEEN_EDITS then (f, Throttled)
      else (f.(lastEdit := now), if Drops(enabled, ack) then EditRaised else Edited(f.ts.value))
  }

  class SlackNotifier {
    const enabled: bool
    var ts: Option<string>
    var lastEdit: real
    var started: real

    function Now(): Fields
      reads this
    {
      Fields(ts, lastEdit, started)
    }

    constructor (enabled: bool, now: real)
      ensures this.enabled == enabled && Now() == Fields(None, 0.0, now)
    {
      this.enabled := enabled;
      ts, lastEdit, started := None, 0.0, now;
    }

    method DoPost(now: real, ack: Ack) returns (end: Outcome)
      modifies this`ts
      ensures (Now(), end) == Step(enabled, old(Now()), Post(now, ack))
      ensures end.Raised() <==> enabled && ack.Dropped?
      ensures if end.Raised() then ts == old(ts) else end.Posted? && ts == Some(end.ts)
      ensures !end.Raised() && enabled && ack.ts.Some? && ack.ts.value != "" ==> ts == ack.ts
      ensures !end.Raised() && enabled && ack.ts in {None, Some("")} ==>
        ts == if old(ts).Some? then old(ts) else Some("")
      ensures !enabled && old(ts) in {None, Some("")} ==> ts == Some("dry-run-" + Text.Decimal(Millis(started)))
      ensures !enabled && old(ts) !in {None, Some("")} ==> ts == old(ts)
    {
      if !enabled {
        if ts.None? || ts.value == "" {
          ts := Some(DryRunId(started));
        }
        return Posted(ts.value);
      }
      if ack.Dropped? {
        return PostRaised;
      }
      if ack.ts.Some? && ack.ts.value != "" {
        ts := ack.ts;
      } else if ts.None? {
        ts := Some("");
      }
      end := Posted(ts.value);
    }

    method DoStart(now: real, ack: Ack) returns (end: Outcome)
      modifies this`ts, this`started
      ensures (Now(), end) == Step(enabled, old(Now()), Start(now, ack))
      ensures started == now && lastEdit == old(lastEdit)
    {
      started := now;
      end := DoPost(now, ack);
    }

    /**
      Throttled when the edit was skipped by the rate limiter; then no field has
      changed. An edit that raises has moved the time of the last edit all the same.
    */
    method DoUpdate(now: real, force: bool, ack: Ack) returns (end: Outcome)
      modifies this`ts, this`lastEdit
      ensures (Now(), end) == Step(enabled, old(Now()), Update(now, force, ack))
      ensures end == Throttled <==> old(ts).Some? && !force && now - old(lastEdit) < MIN_SECONDS_BETWEEN_EDITS
      ensures end.Raised() <==> end != Throttled && enabled && ack.Dropped?
      ensures end in {Throttled, PostRaised} ==> Now() == old(Now())
      ensures old(ts).None? && !end.Raised() ==> end.Posted? && ts == Some(end.ts)
      ensures end.Tried() <==> end != Throttled && old(ts).Some?
      ensures end.Tried() ==> lastEdit == now && ts == old(ts)
    {
      if ts.None? {
        end := DoPost(now, ack);
        return;
      }
      if !force && now - lastEdit < MIN_SECONDS_BETWEEN_EDITS {
        return Throttled;
      }
      lastEdit := now;
      if enabled && ack.Dropped? {
        return EditRaised;
      }
      end := Edited(ts.value);
    }

    method Progress(now: real, ack: Ack) returns (end: Outcome)
      modifies this`ts, this`lastEdit
      ensures (Now(), end) == Step(enabled, old(Now()), Update(now, false, ack))
    {
      end := DoUpdate(now, false, ack);
    }

    /** The final summary is never throttled, but it can raise. */
    method Finish(now: real, ack: Ack) returns (end: Outcome)
      modifies this`ts, this`lastEdit
      ensures (Now(), end) == Step(enabled, old(Now()), Update(now, true, ack))
      ensures end != Throttled && (end.Raised() <==> enabled && ack.Dropped?)
    {
      end := DoUpdate(now, true, ack);
    }
  }

  // ----- any sequence of calls on one notifier -----

  function FieldsAt(enabled: bool, begun: real, calls: seq<Call>, k: nat): Fields
    requires k <= |calls|
  {
    if k == 0 then Fields(None, 0.0, begun)
    else Step(enabled, FieldsAt(enabled, begun, calls, k - 1), calls[k - 1]).0
  }

  function OutcomeAt(enabled: bool, begun: real, calls: seq<Call>, k: nat): Outcome
    requires k < |calls|
  {
    Step(enabled, FieldsAt(enabled, begun, calls, k), calls[k]).1
  }

  predicate EditAt(enabled: bool, begun: real, calls: seq<Call>, k: nat)
    requires k < |calls|
  {
    OutcomeAt(enabled, begun, calls, k).Tried()
  }

  predicate UnforcedEditAt(enabled: bool, begun: real, calls: seq<Call>, k: nat)
    requires k < |calls|
  {
    EditAt(enabled, begun, calls, k) && !calls[k].force
  }

  ghost predicate Monotone(calls: seq<Call>) {
    && (forall k | 0 <= k < |calls| :: 0.0 <= calls[k].now)
    && (forall k, n | 0 <= k <= n < |calls| :: calls[k].now <= calls[n].now)
  }

  /**
    The message that later edits go to: once Slack has named one, it is that one
    until a later post is given another name.
  */
  lemma IdIsKept(f: Fields, call: Call)
    ensures var (g, outcome) := Step(true, f, call);
      && (f.ts.Some? && call.Update? ==> g.ts == f.ts)
      && (f.ts.Some? && call.ack in {Dropped, Answer(None), Answer(Some(""))} ==> g.ts == f.ts)
      && (outcome.Posted? && call.ack.ts.Some? && call.ack.ts.value != "" ==> g.ts == call.ack.ts)
      && (outcome.Edited? ==> f.ts == Some(outcome.ts))
  {
  }

  /** The throttle looks at the latest edit, forced or not. */
  lemma {:induction false} LastEditCovers(enabled: bool, begun: real, calls: seq<Call>, i: nat, k: nat)
    requires Monotone(calls) && i < k <= |calls| && EditAt(enabled, begun, calls, i)
    ensures calls[i].now <= FieldsAt(enabled, begun, calls, k).lastEdit
  {
    StepLastEdit(enabled, FieldsAt(enabled, begun, calls, k - 1), calls[k - 1]);
    hide Step;
    if i < k - 1 {
      LastEditCovers(enabled, begun, calls, i, k - 1);
      LastEditIsPast(enabled, begun, calls, k - 1);
    }
  }

  /** One call moves `lastEdit` only by an edit, and then to the edit's time; unforced, that is five seconds on. */
  lemma StepLastEdit(enabled: bool, f: Fields, call: Call)
    ensures var (g, outcome) := Step(enabled, f, call);
      && g.lastEdit == (if outcome.Tried() then call.now else f.lastEdit)
      && (outcome.Tried() ==> call.Update? && (!call.force ==> call.now - f.lastEdit >= MIN_SECONDS_BETWEEN_EDITS))
      && (outcome.Throttled? || outcome.PostRaised? ==> g.ts == f.ts && g.lastEdit == f.lastEdit)
      && (outcome.Throttled? ==> g == f)
  {
  }

  lemma {:induction false} LastEditIsPast(enabled: bool, begun: real, calls: seq<Call>, k: nat)
    requires Monotone(calls) && k < |calls|
    ensures 0.0 <= FieldsAt(enabled, begun, calls, k).lastEdit <= calls[k].now
  {
    hide Step;
    if k > 0 {
      StepLastEdit(enabled, FieldsAt(enabled, begun, calls, k - 1), calls[k - 1]);
      LastEditIsPast(enabled, begun, calls, k - 1);
      assert calls[k - 1].now <= calls[k].now;
    }
  }

  /** Every unforced edit comes at least five seconds after every earlier edit, forced or not. */
  lemma UnforcedEditsKeepDistance(enabled: bool, begun: real, calls: seq<Call>, i: nat, j: nat)
    requires Monotone(calls) && i < j < |calls|
    requires EditAt(enabled, begun, calls, i) && UnforcedEditAt(enabled, begun, calls, j)
    ensures calls[j].now - calls[i].now >= MIN_SECONDS_BETWEEN_EDITS
  {
    LastEditCovers(enabled, begun, calls, i, j);
  }

  /** Unforced edits among the first `k` calls with times from `from` to `to`. */
  function EditsIn(enabled: bool, begun: real, calls: seq<Call>, k: nat, from: real, to: real): nat
    requires k <= |calls|
  {
    if k == 0 then 0
    else
      var before := EditsIn(enabled, begun, calls, k - 1, from, to);
      if UnforcedEditAt(enabled, begun, calls, k - 1) && from <= calls[k - 1].now <= to then before + 1 else before
  }

  lemma {:induction false} EditsSpread(enabled: bool, begun: real, calls: seq<Call>, k: nat, from: real, to: real)
    requires Monotone(calls) && k <= |calls|
    ensures var n := EditsIn(enabled, begun, calls, k, from, to);
      n > 0 ==>
        from + 5.0 * (n - 1) as real <= FieldsAt(enabled, begun, calls, k).lastEdit
        && from + 5.0 * (n - 1) as real <= to
  {
    hide Step;
    if k > 0 {
      StepLastEdit(enabled, FieldsAt(enabled, begun, calls, k - 1), calls[k - 1]);
      EditsSpread(enabled, begun, calls, k - 1, from, to);
      LastEditIsPast(enabled, begun, calls, k - 1);
    }
  }

  /** Any window of length W holds at most floor(W / 5) + 1 unforced edits, in any sequence of calls. */
  lemma ThrottleBound(enabled: bool, begun: real, calls: seq<Call>, from: real, to: real)
    requires Monotone(calls) && from <= to
    ensures EditsIn(enabled, begun, calls, |calls|, from, to)
      <= ((to - from) / MIN_SECONDS_BETWEEN_EDITS).Floor + 1
  {
    EditsSpread(enabled, begun, calls, |calls|, from, to);
    var n := EditsIn(enabled, begun, calls, |calls|, from, to);
    if n > 0 {
      assert (n - 1) as real <= (to - from) / 5.0;
    }
  }
}
