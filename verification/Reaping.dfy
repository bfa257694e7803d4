/**
  Reaping is lazy: the edge reaps only inside a claim. Extra reaps, anywhere,
  change no claim's answer and no table up to a final reap, as long as no lapsed
  holder speaks before it has been reaped; and exactly as long as that.
*/
module Reaping {
  import opened Queue

  /** Reaping twice is reaping once at the later stamp, on any table, in either order. */
  lemma ReapTwice(t: Table, cap: int, first: Time, second: Time)
    ensures Reaped(Reaped(t, cap, first), cap, second)
      == Reaped(t, cap, if first < second then second else first)
  {
    var once := Reaped(t, cap, if first < second then second else first);
    var twice := Reaped(Reaped(t, cap, first), cap, second);
    forall id | id in t ensures twice[id] == once[id] {
      assert Reaped(t, cap, first)[id] == ReapRow(t[id], cap, first);
    }
    assert twice.Keys == once.Keys;
  }

  // ----- a run with extra reaps -----

  /** `extra` calls are reaps that only the eager side performs. */
  datatype Item = Item(op: Op, extra: bool)

  function Play(start: Table, items: seq<Item>, k: nat, eager: bool): Table
    requires k <= |items|
  {
    if k == 0 then start
    else
      var t := Play(start, items, k - 1, eager);
      if items[k - 1].extra && !eager then t else Apply(t, items[k - 1].op)
  }

  /** What the call would change belongs to a holder whose lease has not lapsed at the call's stamp. */
  ghost predicate TimelyRow(id: JobId, r: Row, op: Op) {
    match op
    case MarkRunning(j, runner, now) => j == id && Startable(r, runner) ==> !Lapsed(r, now)
    case Finish(j, runner, _, _, now) => j == id && HeldBy(r, runner) ==> !Lapsed(r, now)
    case Renew(runner, _, now) => HeldBy(r, runner) ==> !Lapsed(r, now)
    case _ => true
  }

  ghost predicate Timely(t: Table, op: Op) {
    forall id | id in t :: TimelyRow(id, t[id], op)
  }

  function Stamp(items: seq<Item>, k: nat): Time
    requires 0 < k <= |items|
  {
    items[k - 1].op.now
  }

  ghost predicate WellTimed(start: Table, items: seq<Item>, cap: int) {
    forall k | 0 <= k < |items| :: WellTimedAt(start, items, k, cap)
  }

  /** One cap, stamps that never go back, extras that are reaps, and no lapsed holder speaking. */
  ghost predicate WellTimedAt(start: Table, items: seq<Item>, k: nat, cap: int)
    requires k < |items|
  {
    && (items[k].op.Reaps() ==> items[k].op.cap == cap)
    && (items[k].extra ==> items[k].op.Reap?)
    && (k > 0 ==> items[k - 1].op.now <= items[k].op.now)
    && (!items[k].extra ==> Timely(Play(start, items, k, false), items[k].op))
  }

  // ----- how far the eager table may be ahead -----

  /** The eager row is the lazy row, or that row already reaped after its lease lapsed. */
  predicate Ahead(a: Row, b: Row, cap: int, now: Time) {
    b == a || (Lapsed(a, now) && b == ReapRow(a, cap, now))
  }

  ghost predicate TableAhead(t: Table, u: Table, cap: int, now: Time) {
    t.Keys == u.Keys && forall id | id in t :: Ahead(t[id], u[id], cap, now)
  }

  lemma AheadMeansSameWhenReaped(a: Row, b: Row, cap: int, before: Time, now: Time)
    requires Ahead(a, b, cap, before) && before <= now
    ensures ReapRow(a, cap, now) == ReapRow(b, cap, now)
  {
  }

  lemma SameWhenReaped(t: Table, u: Table, cap: int, before: Time, now: Time)
    requires TableAhead(t, u, cap, before) && before <= now
    ensures Reaped(t, cap, now) == Reaped(u, cap, now)
  {
    forall id | id in t ensures ReapRow(t[id], cap, now) == ReapRow(u[id], cap, now) {
      AheadMeansSameWhenReaped(t[id], u[id], cap, before, now);
    }
  }

  lemma RowStaysAhead(id: JobId, a: Row, b: Row, op: Op, cap: int, before: Time)
    requires Ahead(a, b, cap, before) && before <= op.now
    requires op.Reaps() ==> op.cap == cap
    requires TimelyRow(id, a, op)
    ensures Ahead(RowStep(id, a, op), RowStep(id, b, op), cap, op.now)
    ensures op.MarkRunning? && op.id == id ==> (Startable(a, op.runner) <==> Startable(b, op.runner))
    ensures op.Finish? && op.id == id ==> (HeldBy(a, op.runner) <==> HeldBy(b, op.runner))
    ensures op.Renew? ==> (HeldBy(a, op.runner) <==> HeldBy(b, op.runner))
  {
  }

  /** One call made on both sides: same answer, and the eager side stays ahead. */
  lemma StepBoth(t: Table, u: Table, op: Op, cap: int, before: Time)
    requires TableAhead(t, u, cap, before) && before <= op.now && Timely(t, op)
    requires op.Reaps() ==> op.cap == cap
    ensures Enabled(t, op) <==> Enabled(u, op)
    ensures Accepts(t, op) <==> Accepts(u, op)
    ensures TableAhead(Apply(t, op), Apply(u, op), cap, op.now)
  {
    hide RowStep, ReapRow;
    if op.Claim? {
      SameWhenReaped(t, u, cap, before, op.now);
    }
    forall id | id in t
      ensures Ahead(RowStep(id, t[id], op), RowStep(id, u[id], op), cap, op.now)
      ensures op.MarkRunning? && op.id == id ==> (Startable(t[id], op.runner) <==> Startable(u[id], op.runner))
      ensures op.Finish? && op.id == id ==> (HeldBy(t[id], op.runner) <==> HeldBy(u[id], op.runner))
      ensures op.Renew? ==> (HeldBy(t[id], op.runner) <==> HeldBy(u[id], op.runner))
    {
      RowStaysAhead(id, t[id], u[id], op, cap, before);
    }
    hide Startable, HeldBy, Ahead;
    ApplyBoth(t, u, op, cap);
  }

  lemma ApplyBoth(t: Table, u: Table, op: Op, cap: int)
    requires t.Keys == u.Keys
    requires forall id | id in t :: Ahead(RowStep(id, t[id], op), RowStep(id, u[id], op), cap, op.now)
    ensures TableAhead(Apply(t, op), Apply(u, op), cap, op.now)
  {
    hide ReapRow;
    if op.Enqueue? && op.job.id !in t {
      forall id | id in t ensures Ahead(t[id], u[id], cap, op.now) {
        assert RowStep(id, t[id], op) == t[id] && RowStep(id, u[id], op) == u[id];
      }
    }
  }

  /** An extra reap on the eager side only. */
  lemma StepExtra(t: Table, u: Table, op: Op, cap: int, before: Time)
    requires TableAhead(t, u, cap, before) && before <= op.now && op.Reap? && op.cap == cap
    ensures TableAhead(t, Apply(u, op), cap, op.now)
  {
    forall id | id in t ensures Ahead(t[id], ReapRow(u[id], cap, op.now), cap, op.now) {
      assert Ahead(t[id], u[id], cap, before);
    }
  }

  lemma {:induction false} StaysAhead(start: Table, items: seq<Item>, k: nat, cap: int)
    requires WellTimed(start, items, cap) && k <= |items|
    ensures TableAhead(Play(start, items, k, false), Play(start, items, k, true), cap,
                       if k == 0 then 0.0 else Stamp(items, k))
    ensures k < |items| && k > 0 ==> Stamp(items, k) <= items[k].op.now
  {
    hide Apply, Timely, TableAhead;
    if k == 0 {
      TableAheadOfItself(start, cap, 0.0);
    } else {
      StaysAhead(start, items, k - 1, cap);
      assert WellTimedAt(start, items, k - 1, cap);
      assert k < |items| ==> WellTimedAt(start, items, k, cap);
      var t, u := Play(start, items, k - 1, false), Play(start, items, k - 1, true);
      var before := if k == 1 then items[0].op.now else Stamp(items, k - 1);
      if k == 1 {
        TableAheadOfItself(start, cap, before);
      }
      if items[k - 1].extra {
        StepExtra(t, u, items[k - 1].op, cap, before);
      } else {
        StepBoth(t, u, items[k - 1].op, cap, before);
      }
    }
  }

  lemma TableAheadOfItself(t: Table, cap: int, now: Time)
    ensures TableAhead(t, t, cap, now)
  {
  }

  /**
    Lazy reaping equals eager reaping: with reaps inserted anywhere, every call
    that both sides make is allowed the same answers and answered alike, and both
    tables are equal after a reap at the last stamp.
  */
  lemma LazyEqualsEager(start: Table, items: seq<Item>, k: nat, cap: int)
    requires WellTimed(start, items, cap) && k < |items| && !items[k].extra
    ensures var lazy, eager := Play(start, items, k, false), Play(start, items, k, true);
      && (Enabled(lazy, items[k].op) <==> Enabled(eager, items[k].op))
      && (Accepts(lazy, items[k].op) <==> Accepts(eager, items[k].op))
    ensures Reaped(Play(start, items, k + 1, false), cap, items[k].op.now)
      == Reaped(Play(start, items, k + 1, true), cap, items[k].op.now)
  {
    hide Apply, Timely, TableAhead, Accepts, Enabled, Reaped;
    StaysAhead(start, items, k, cap);
    StaysAhead(start, items, k + 1, cap);
    assert WellTimedAt(start, items, k, cap);
    var before := if k == 0 then items[0].op.now else Stamp(items, k);
    if k == 0 {
      TableAheadOfItself(start, cap, before);
    }
    StepBoth(Play(start, items, k, false), Play(start, items, k, true), items[k].op, cap, before);
    SameWhenReaped(Play(start, items, k + 1, false), Play(start, items, k + 1, true), cap,
                   items[k].op.now, items[k].op.now);
  }

  // ----- the hypothesis is exact -----

  /**
    For a start or a result the two disciplines answer alike if and only if the
    call is timely: a lapsed holder is still heard lazily and is refused eagerly.
  */
  lemma AnswersAgreeExactly(t: Table, op: Op, cap: int)
    requires op.MarkRunning? || op.Finish?
    ensures (Accepts(t, op) <==> Accepts(Reaped(t, cap, op.now), op)) <==> Timely(t, op)
  {
    if op.id in t {
      assert TimelyRow(op.id, t[op.id], op) ==> Timely(t, op);
    }
  }

  /** For a heartbeat they leave the same table, once reaped, if and only if it is timely. */
  lemma RenewsAgreeExactly(t: Table, op: Op, cap: int)
    requires op.Renew? && op.leaseSeconds >= 0.0
    ensures Reaped(Apply(t, op), cap, op.now) == Reaped(Apply(Reaped(t, cap, op.now), op), cap, op.now)
      <==> Timely(t, op)
  {
    var lazy := Reaped(Apply(t, op), cap, op.now);
    var eager := Reaped(Apply(Reaped(t, cap, op.now), op), cap, op.now);
    forall id | id in t
      ensures id in lazy && id in eager && (lazy[id] == eager[id] <==> TimelyRow(id, t[id], op))
    {
      RenewRowAgrees(id, t[id], op, cap);
    }
    assert lazy.Keys == t.Keys == eager.Keys;
  }

  lemma RenewRowAgrees(id: JobId, r: Row, op: Op, cap: int)
    requires op.Renew? && op.leaseSeconds >= 0.0
    ensures TimelyRow(id, r, op) <==>
      ReapRow(RowStep(id, r, op), cap, op.now)
        == ReapRow(RowStep(id, ReapRow(r, cap, op.now), op), cap, op.now)
  {
  }
}
