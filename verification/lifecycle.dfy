/**
 The executions table under any number of workers and a reconciler (database dispatch mode).

 A run is a sequence of steps: the SQL statements of internal/store/postgres/queries.go, the phase
 changes of the workers that run `Dispatch`, crashes, and the passing of time.  Dequeue is two
 steps, because the claiming UPDATE has no status guard of its own and relies on the row lock that
 SELECT ... FOR UPDATE took.
 */
module Lifecycle {
  import opened Common
  import opened Dispatch

  type ExecId = nat
  type WorkerId = nat

  datatype Status = Emitted | InProgress | Finished(outcome: Terminal)

  datatype Row = Row(status: Status, claimedAt: Option<int>)

  /**
   A worker that is not in the map is idle or dead.  NOW() in the claiming UPDATE is the start of
   the transaction, so the claim carries `txStart`.
   */
  datatype Worker =
    | Selecting(exec: ExecId, txStart: int, deadline: int)
    | Delivering(exec: ExecId, claimedAt: int, phase: Phase, deadline: int)

  datatype State = State(
    now: int,
    rows: map<ExecId, Row>,
    locks: map<ExecId, WorkerId>,
    workers: map<WorkerId, Worker>)

  /** `skew` bounds how far the reconciler's clock may run ahead of the database's. */
  datatype Params = Params(limits: Limits, threshold: int, skew: nat, batch: nat)

  datatype Event =
    | Tick(elapsed: nat)
    | Insert(exec: ExecId)
    | Select(worker: WorkerId, exec: ExecId)
    | Claim(worker: WorkerId, seen: bool)  // not seen: the commit took effect, the worker got an error
    | JobLoaded(worker: WorkerId, go: bool)  // not go: no job, no URL, or the circuit is open
    | SendDone(worker: WorkerId, result: WebhookResult)
    | AttemptRecorded(worker: WorkerId)
    | WaitOver(worker: WorkerId)
    | Write(worker: WorkerId)
    | Leave(worker: WorkerId)  // crash, cancellation, rollback or a database error, at any point
    | Requeue(cutoff: int, picked: set<ExecId>)

  const INIT: State := State(0, map[], map[], map[])

  // ---------- the statements ----------

  predicate Stale(s: State, e: ExecId, cutoff: int) {
    && e in s.rows && e !in s.locks
    && s.rows[e].status == InProgress
    && s.rows[e].claimedAt.Some? && s.rows[e].claimedAt.value < cutoff
  }

  function StaleRows(s: State, cutoff: int): set<ExecId> {
    set e | e in s.rows && Stale(s, e, cutoff)
  }

  /** ORDER BY claimed_at ASC LIMIT batch FOR UPDATE SKIP LOCKED. */
  predicate OldestBatch(s: State, cutoff: int, batch: nat, picked: set<ExecId>) {
    && picked <= StaleRows(s, cutoff)
    && |picked| <= batch
    && (|picked| < batch ==> picked == StaleRows(s, cutoff))
    && forall e, f :: e in picked && f in StaleRows(s, cutoff) - picked ==>
                        s.rows[e].claimedAt.value <= s.rows[f].claimedAt.value
  }

  predicate At(s: State, w: WorkerId) {
    w in s.workers && s.workers[w].Delivering? && s.workers[w].phase.Valid()
  }

  predicate Enabled(p: Params, s: State, ev: Event) {
    match ev
    case Tick(_) => true
    case Insert(e) => e !in s.rows
    case Select(w, e) => w !in s.workers && e in s.rows && s.rows[e].status == Emitted && e !in s.locks
    case Claim(w, _) => w in s.workers && s.workers[w].Selecting? && s.workers[w].exec in s.rows
    case JobLoaded(w, _) => At(s, w) && s.workers[w].phase.Loading?
    case SendDone(w, _) => At(s, w) && s.workers[w].phase.Sending?
    case AttemptRecorded(w) => At(s, w) && s.workers[w].phase.Recording?
    case WaitOver(w) => At(s, w) && s.workers[w].phase.Waiting?
    case Write(w) => At(s, w) && s.workers[w].phase.Writing? && s.workers[w].exec in s.rows
                     && s.workers[w].exec !in s.locks  // the UPDATE waits for a row lock
    case Leave(w) => w in s.workers
    case Requeue(cutoff, picked) => cutoff <= s.now + p.skew - p.threshold && OldestBatch(s, cutoff, p.batch, picked)
  }

  function Enter(p: Params, s: State, w: WorkerId, ph: Phase): State
    requires At(s, w) && ph.Valid()
  {
    s.(workers := s.workers[w := s.workers[w].(phase := ph, deadline := s.now + Limit(p.limits, ph))])
  }

  function Drop(s: State, w: WorkerId): State
    requires w in s.workers
  {
    s.(workers := s.workers - {w}, locks := if s.workers[w].Selecting? then s.locks - {s.workers[w].exec} else s.locks)
  }

  function Apply(p: Params, s: State, ev: Event): State
    requires Enabled(p, s, ev)
  {
    match ev
    case Tick(d) => s.(now := s.now + d)
    case Insert(e) => s.(rows := s.rows[e := Row(Emitted, None)])
    case Select(w, e) =>
      s.(locks := s.locks[e := w], workers := s.workers[w := Selecting(e, s.now, s.now + p.limits.op)])
    case Claim(w, seen) =>
      var e, t := s.workers[w].exec, s.workers[w].txStart;
      var s' := Drop(s, w).(rows := s.rows[e := Row(InProgress, Some(t))]);
      if seen then s'.(workers := s'.workers[w := Delivering(e, t, Loading, s.now + p.limits.op)]) else s'
    case JobLoaded(w, go) => if go then Enter(p, s, w, Sending(1)) else Drop(s, w)
    case SendDone(w, r) => Enter(p, s, w, Recording(s.workers[w].phase.attempt, r))
    case AttemptRecorded(w) =>
      var ph := s.workers[w].phase;
      Enter(p, s, w, AfterRecord(ph.attempt, ph.result))
    case WaitOver(w) => Enter(p, s, w, Sending(s.workers[w].phase.attempt))
    case Write(w) =>
      var e, t := s.workers[w].exec, s.workers[w].phase.status;
      var row := s.rows[e];
      var row' := if row.status.Finished? then row else row.(status := Finished(t));
      Drop(s, w).(rows := s.rows[e := row'])
    case Leave(w) => Drop(s, w)
    case Requeue(_, picked) =>
      s.(rows := map e | e in s.rows :: if e in picked then Row(Emitted, None) else s.rows[e])
  }

  /** Time passes only while nobody overstays: operations time out and timers fire. */
  predicate Timely(s: State, ev: Event) {
    ev.Tick? ==> forall w :: w in s.workers ==> s.now + ev.elapsed <= s.workers[w].deadline
  }

  predicate ValidRun(p: Params, s: State, evs: seq<Event>)
    decreases |evs|
  {
    evs == [] || (Enabled(p, s, evs[0]) && ValidRun(p, Apply(p, s, evs[0]), evs[1..]))
  }

  function Final(p: Params, s: State, evs: seq<Event>): State
    requires ValidRun(p, s, evs)
    decreases |evs|
  {
    if evs == [] then s else Final(p, Apply(p, s, evs[0]), evs[1..])
  }

  predicate TimelyRun(p: Params, s: State, evs: seq<Event>)
    decreases |evs|
  {
    evs == [] ||
    (Enabled(p, s, evs[0]) && Timely(s, evs[0]) && TimelyRun(p, Apply(p, s, evs[0]), evs[1..]))
  }

  // ---------- what holds however long anybody takes ----------

  predicate RowOk(s: State, e: ExecId)
    requires e in s.rows
  {
    match s.rows[e].status
    case Emitted => s.rows[e].claimedAt.None?
    case InProgress => s.rows[e].claimedAt.Some? && s.rows[e].claimedAt.value <= s.now
    case Finished(_) => true
  }

  predicate LockOk(s: State, e: ExecId)
    requires e in s.locks
  {
    && e in s.rows && s.rows[e].status == Emitted
    && s.locks[e] in s.workers
    && s.workers[s.locks[e]].Selecting? && s.workers[s.locks[e]].exec == e
  }

  predicate WorkerOk(s: State, w: WorkerId)
    requires w in s.workers
  {
    match s.workers[w]
    case Selecting(e, t, _) => e in s.locks && s.locks[e] == w && t <= s.now
    case Delivering(e, t, ph, _) => e in s.rows && ph.Valid() && t <= s.now
  }

  predicate Inv(s: State) {
    && (forall e :: e in s.rows ==> RowOk(s, e))
    && (forall e :: e in s.locks ==> LockOk(s, e))
    && (forall w :: w in s.workers ==> WorkerOk(s, w))
  }

  lemma RowsStep(p: Params, s: State, ev: Event, e: ExecId)
    requires Inv(s) && Enabled(p, s, ev) && e in Apply(p, s, ev).rows
    ensures RowOk(Apply(p, s, ev), e)
  {
    if e in s.rows { assert RowOk(s, e); }
    if ev.Claim? { assert WorkerOk(s, ev.worker); }
  }

  lemma LocksStep(p: Params, s: State, ev: Event, e: ExecId)
    requires Inv(s) && Enabled(p, s, ev) && e in Apply(p, s, ev).locks
    ensures LockOk(Apply(p, s, ev), e)
  {
    hide Limit;
    if e in s.locks { assert LockOk(s, e); }
    if ev.Claim? || ev.Leave? { assert WorkerOk(s, ev.worker); }
    if ev.Requeue? { assert forall f :: f in ev.picked ==> Stale(s, f, ev.cutoff); }
  }

  lemma WorkersStep(p: Params, s: State, ev: Event, w: WorkerId)
    requires Inv(s) && Enabled(p, s, ev) && w in Apply(p, s, ev).workers
    ensures WorkerOk(Apply(p, s, ev), w)
  {
    hide Limit;
    if w in s.workers { assert WorkerOk(s, w); }
    if ev.Claim? || ev.Leave? { assert WorkerOk(s, ev.worker); }
  }

  lemma InvStep(p: Params, s: State, ev: Event)
    requires Inv(s) && Enabled(p, s, ev)
    ensures Inv(Apply(p, s, ev))
  {
    hide Enabled, Apply, RowOk, LockOk, WorkerOk;
    var s' := Apply(p, s, ev);
    forall e | e in s'.rows ensures RowOk(s', e) { RowsStep(p, s, ev, e); }
    forall e | e in s'.locks ensures LockOk(s', e) { LocksStep(p, s, ev, e); }
    forall w | w in s'.workers ensures WorkerOk(s', w) { WorkersStep(p, s, ev, w); }
  }

  lemma {:induction false} InvRun(p: Params, s: State, evs: seq<Event>)
    requires Inv(s) && ValidRun(p, s, evs)
    ensures Inv(Final(p, s, evs))
    decreases |evs|
  {
    if evs != [] {
      InvStep(p, s, evs[0]);
      InvRun(p, Apply(p, s, evs[0]), evs[1..]);
    }
  }

  /** However late a worker writes and however often rows are requeued, a finished row is final. */
  lemma {:induction false} FinishedForever(p: Params, s: State, evs: seq<Event>, e: ExecId)
    requires Inv(s) && ValidRun(p, s, evs)
    requires e in s.rows && s.rows[e].status.Finished?
    ensures e in Final(p, s, evs).rows && Final(p, s, evs).rows[e] == s.rows[e]
    decreases |evs|
  {
    if evs != [] {
      var ev := evs[0];
      if ev.Claim? { assert WorkerOk(s, ev.worker) && LockOk(s, s.workers[ev.worker].exec); }
      if ev.Requeue? { assert forall f :: f in ev.picked ==> Stale(s, f, ev.cutoff); }
      InvStep(p, s, ev);
      FinishedForever(p, Apply(p, s, ev), evs[1..], e);
    }
  }

  // ---------- at most one delivery at a time ----------

  predicate Exclusive(s: State) {
    forall v, w | v in s.workers && w in s.workers && s.workers[v].Delivering? && s.workers[w].Delivering? ::
      s.workers[v].exec == s.workers[w].exec ==> v == w
  }

  /** Every live worker is inside its time budget, and every delivery still owns its row. */
  predicate OnTime(p: Params, s: State, w: WorkerId)
    requires w in s.workers
  {
    match s.workers[w]
    case Selecting(_, t, deadline) => s.now <= deadline <= t + p.limits.op
    case Delivering(e, t, ph, deadline) =>
      && ph.Valid() && s.now <= deadline && deadline + Rest(p.limits, ph) <= t + Hold(p.limits)
      && e in s.rows && s.rows[e] == Row(InProgress, Some(t))
  }

  predicate TimedInv(p: Params, s: State) {
    && Inv(s)
    && Exclusive(s)
    && forall w :: w in s.workers ==> OnTime(p, s, w)
  }

  predicate Wide(p: Params) {
    Hold(p.limits) + p.skew <= p.threshold
  }

  lemma ExclusiveStep(p: Params, s: State, ev: Event)
    requires TimedInv(p, s) && Enabled(p, s, ev)
    ensures Exclusive(Apply(p, s, ev))
  {
    if ev.Claim? {
      var e := s.workers[ev.worker].exec;
      assert WorkerOk(s, ev.worker) && LockOk(s, e);
      forall w | w in s.workers && s.workers[w].Delivering? ensures s.workers[w].exec != e {
        assert OnTime(p, s, w);
      }
    }
  }

  /** A row that somebody is delivering is too young to be requeued. */
  lemma RequeueSparesDeliveries(p: Params, s: State, cutoff: int, picked: set<ExecId>, w: WorkerId)
    requires TimedInv(p, s) && Wide(p) && Enabled(p, s, Requeue(cutoff, picked))
    requires w in s.workers && s.workers[w].Delivering?
    ensures s.workers[w].exec !in picked
  {
    assert OnTime(p, s, w);
    assert s.workers[w].exec in picked ==> Stale(s, s.workers[w].exec, cutoff);
  }

  lemma EnterOnTime(p: Params, s: State, v: WorkerId, ph: Phase, w: WorkerId)
    requires w in s.workers && OnTime(p, s, w) && v in s.workers && OnTime(p, s, v) && At(s, v)
    requires ph.Valid() && Limit(p.limits, ph) + Rest(p.limits, ph) <= Rest(p.limits, s.workers[v].phase)
    ensures OnTime(p, Enter(p, s, v, ph), w)
  {
    hide Hold, Rest, Limit;
  }

  lemma MoveOnTime(p: Params, s: State, ev: Event, w: WorkerId)
    requires TimedInv(p, s) && Enabled(p, s, ev)
    requires ev.JobLoaded? || ev.SendDone? || ev.AttemptRecorded? || ev.WaitOver?
    requires w in Apply(p, s, ev).workers
    ensures OnTime(p, Apply(p, s, ev), w)
  {
    hide Hold, Rest, Limit;
    var v := ev.worker;
    assert OnTime(p, s, v) && OnTime(p, s, w);
    var ph := s.workers[v].phase;
    match ev
    case JobLoaded(_, go) =>
      PhaseBudgets(p.limits, 1, WebhookResult(0, true));
      if go { EnterOnTime(p, s, v, Sending(1), w); }
    case SendDone(_, r) =>
      PhaseBudgets(p.limits, ph.attempt, r);
      EnterOnTime(p, s, v, Recording(ph.attempt, r), w);
    case AttemptRecorded(_) =>
      AfterRecordWithinBudget(p.limits, ph.attempt, ph.result);
      EnterOnTime(p, s, v, AfterRecord(ph.attempt, ph.result), w);
    case WaitOver(_) =>
      PhaseBudgets(p.limits, ph.attempt, WebhookResult(0, true));
      EnterOnTime(p, s, v, Sending(ph.attempt), w);
  }

  lemma ClaimOnTime(p: Params, s: State, v: WorkerId, seen: bool, w: WorkerId)
    requires TimedInv(p, s) && Enabled(p, s, Claim(v, seen))
    requires w in Apply(p, s, Claim(v, seen)).workers
    ensures OnTime(p, Apply(p, s, Claim(v, seen)), w)
  {
    hide Hold, Rest;
    assert WorkerOk(s, v) && LockOk(s, s.workers[v].exec) && OnTime(p, s, v);
    ClaimWithinHold(p.limits);
    if w != v { assert OnTime(p, s, w); }
  }

  lemma OnTimeStep(p: Params, s: State, ev: Event, w: WorkerId)
    requires TimedInv(p, s) && Wide(p) && Enabled(p, s, ev) && Timely(s, ev)
    requires w in Apply(p, s, ev).workers
    ensures OnTime(p, Apply(p, s, ev), w)
  {
    hide Hold, Rest, Wide;
    if ev.JobLoaded? || ev.SendDone? || ev.AttemptRecorded? || ev.WaitOver? {
      MoveOnTime(p, s, ev, w);
    } else if ev.Claim? {
      ClaimOnTime(p, s, ev.worker, ev.seen, w);
    } else if w in s.workers {
      assert OnTime(p, s, w);
      if ev.Requeue? && s.workers[w].Delivering? {
        RequeueSparesDeliveries(p, s, ev.cutoff, ev.picked, w);
      }
    }
  }

  lemma ClaimWithinHold(l: Limits)
    ensures Hold(l) == l.op + l.op + Rest(l, Loading)
  {
  }

  lemma PhaseBudgets(l: Limits, n: nat, r: WebhookResult)
    requires 1 <= n <= MAX_ATTEMPTS
    ensures Limit(l, Sending(1)) + Rest(l, Sending(1)) <= Rest(l, Loading)
    ensures Limit(l, Recording(n, r)) + Rest(l, Recording(n, r)) <= Rest(l, Sending(n))
    ensures n >= 2 ==> Limit(l, Sending(n)) + Rest(l, Sending(n)) <= Rest(l, Waiting(n))
  {
  }

  lemma TimedStep(p: Params, s: State, ev: Event)
    requires TimedInv(p, s) && Wide(p) && Enabled(p, s, ev) && Timely(s, ev)
    ensures TimedInv(p, Apply(p, s, ev))
  {
    InvStep(p, s, ev);
    ExclusiveStep(p, s, ev);
    forall w | w in Apply(p, s, ev).workers ensures OnTime(p, Apply(p, s, ev), w) {
      OnTimeStep(p, s, ev, w);
    }
  }

  lemma {:induction false} TimelyIsValid(p: Params, s: State, evs: seq<Event>)
    requires TimelyRun(p, s, evs)
    ensures ValidRun(p, s, evs)
    decreases |evs|
  {
    if evs != [] {
      TimelyIsValid(p, Apply(p, s, evs[0]), evs[1..]);
    }
  }

  lemma {:induction false} TimedRun(p: Params, s: State, evs: seq<Event>)
    requires TimedInv(p, s) && Wide(p) && TimelyRun(p, s, evs)
    ensures ValidRun(p, s, evs) && TimedInv(p, Final(p, s, evs))
    decreases |evs|
  {
    TimelyIsValid(p, s, evs);
    if evs != [] {
      TimedStep(p, s, evs[0]);
      TimedRun(p, Apply(p, s, evs[0]), evs[1..]);
    }
  }

  // ---------- the threshold is exact ----------

  /** Worker 1 alone, delivering execution 0, claimed at time 0. */
  function Busy(t: int, ph: Phase, deadline: int): State {
    State(t, map[0 := Row(InProgress, Some(0))], map[], map[1 := Delivering(0, 0, ph, deadline)])
  }

  ghost predicate Leads(p: Params, s: State, evs: seq<Event>, s': State) {
    TimelyRun(p, s, evs) && ValidRun(p, s, evs) && Final(p, s, evs) == s'
  }

  lemma OneStep(p: Params, s: State, ev: Event)
    requires Enabled(p, s, ev) && Timely(s, ev)
    ensures Leads(p, s, [ev], Apply(p, s, ev))
  {
    var s' := Apply(p, s, ev);
    assert [ev][1..] == [];
    assert TimelyRun(p, s', []) && ValidRun(p, s', []) && Final(p, s', []) == s';
  }

  lemma {:induction false} Chain(p: Params, s: State, a: seq<Event>, s1: State, b: seq<Event>, s2: State)
    requires Leads(p, s, a, s1) && Leads(p, s1, b, s2)
    ensures Leads(p, s, a + b, s2)
    decreases |a|
  {
    if a == [] {
      assert a + b == b;
    } else {
      Chain(p, Apply(p, s, a[0]), a[1..], s1, b, s2);
      assert (a + b)[0] == a[0] && (a + b)[1..] == a[1..] + b;
    }
  }

  /** Staying in a phase to its limit and then moving on. */
  lemma Linger(p: Params, t: int, ph: Phase, ev: Event, ph': Phase) returns (evs: seq<Event>)
    requires ph.Valid() && ph'.Valid()
    requires var d := t + Limit(p.limits, ph);
             Enabled(p, Busy(d, ph, d), ev) && Apply(p, Busy(d, ph, d), ev) == Enter(p, Busy(d, ph, d), 1, ph')
             && !ev.Tick?
    ensures var d := t + Limit(p.limits, ph);
            Leads(p, Busy(t, ph, d), evs, Busy(d, ph', d + Limit(p.limits, ph')))
  {
    hide Limit;
    var d := t + Limit(p.limits, ph);
    var wait := Tick(Limit(p.limits, ph));
    OneStep(p, Busy(t, ph, d), wait);
    OneStep(p, Busy(d, ph, d), ev);
    assert Enter(p, Busy(d, ph, d), 1, ph') == Busy(d, ph', d + Limit(p.limits, ph'));
    Chain(p, Busy(t, ph, d), [wait], Busy(d, ph, d), [ev], Busy(d, ph', d + Limit(p.limits, ph')));
    evs := [wait] + [ev];
  }

  lemma SlowAttempt(p: Params, t: int, n: nat) returns (evs: seq<Event>)
    requires 1 <= n <= MAX_ATTEMPTS
    ensures var l := p.limits;
            var t' := t + l.send + l.op;
            var next := if n < MAX_ATTEMPTS then Waiting(n + 1) else Writing(Failed);
            Leads(p, Busy(t, Sending(n), t + l.send), evs, Busy(t', next, t' + Limit(l, next)))
  {
    hide Leads;
    var l, lost := p.limits, WebhookResult(0, true);
    var t1 := t + l.send;
    var t2 := t1 + l.op;
    var a := Linger(p, t, Sending(n), SendDone(1, lost), Recording(n, lost));
    var next := AfterRecord(n, lost);
    var b := Linger(p, t1, Recording(n, lost), AttemptRecorded(1), next);
    Chain(p, Busy(t, Sending(n), t1), a, Busy(t1, Recording(n, lost), t2), b, Busy(t2, next, t2 + Limit(l, next)));
    evs := a + b;
  }

  /** From any attempt on, worst-case luck uses the budget up to the last nanosecond. */
  lemma {:induction false} Slowest(p: Params, t: int, n: nat) returns (evs: seq<Event>)
    requires 1 <= n <= MAX_ATTEMPTS
    ensures var l := p.limits;
            var t' := t + l.send + l.op + Tail(l, n);
            Leads(p, Busy(t, Sending(n), t + l.send), evs, Busy(t' - l.op, Writing(Failed), t'))
    decreases MAX_ATTEMPTS - n
  {
    hide Leads, Enabled, Apply;
    var l := p.limits;
    var a := SlowAttempt(p, t, n);
    evs := a;
    if n < MAX_ATTEMPTS {
      var t2 := t + l.send + l.op;
      var t3 := t2 + BACKOFF[n];
      var b := SlowWait(p, t2, n + 1);
      var c := Slowest(p, t3, n + 1);
      var t4 := t3 + l.send + Tail(l, n + 1);
      var first, last := Busy(t, Sending(n), t + l.send), Busy(t4, Writing(Failed), t4 + l.op);
      Chain(p, first, a, Busy(t2, Waiting(n + 1), t3), b, Busy(t3, Sending(n + 1), t3 + l.send));
      Chain(p, first, a + b, Busy(t3, Sending(n + 1), t3 + l.send), c, last);
      evs := a + b + c;
    }
  }

  lemma SlowWait(p: Params, t: int, n: nat) returns (evs: seq<Event>)
    requires 2 <= n <= MAX_ATTEMPTS
    ensures var t' := t + BACKOFF[n - 1];
            Leads(p, Busy(t, Waiting(n), t'), evs, Busy(t', Sending(n), t' + p.limits.send))
  {
    hide Leads;
    evs := Linger(p, t, Waiting(n), WaitOver(1), Sending(n));
  }

  lemma SlowSelect(p: Params) returns (evs: seq<Event>)
    ensures var op := p.limits.op;
            Leads(p, INIT, evs, State(op, map[0 := Row(Emitted, None)], map[0 := 1], map[1 := Selecting(0, 0, op)]))
  {
    var op := p.limits.op;
    var row := map[0 := Row(Emitted, None)];
    var s1 := State(0, row, map[], map[]);
    var s2 := State(0, row, map[0 := 1], map[1 := Selecting(0, 0, op)]);
    OneStep(p, INIT, Insert(0));
    OneStep(p, s1, Select(1, 0));
    OneStep(p, s2, Tick(op));
    assert Apply(p, s1, Select(1, 0)) == s2;
    hide Leads, Enabled, Apply;
    Chain(p, INIT, [Insert(0)], s1, [Select(1, 0)], s2);
    Chain(p, INIT, [Insert(0)] + [Select(1, 0)], s2, [Tick(op)], s2.(now := op));
    evs := [Insert(0)] + [Select(1, 0)] + [Tick(op)];
  }

  lemma SlowClaim(p: Params) returns (evs: seq<Event>)
    ensures var l := p.limits;
            Leads(p, INIT, evs, Busy(l.op + l.op, Sending(1), l.op + l.op + l.send))
  {
    var op := p.limits.op;
    var s3 := State(op, map[0 := Row(Emitted, None)], map[0 := 1], map[1 := Selecting(0, 0, op)]);
    var s4 := Busy(op, Loading, op + op);
    OneStep(p, s3, Claim(1, true));
    assert Apply(p, s3, Claim(1, true)) == s4;
    hide Leads, Enabled, Apply;
    var a := SlowSelect(p);
    Chain(p, INIT, a, s3, [Claim(1, true)], s4);
    var b := SlowLoad(p, op);
    Chain(p, INIT, a + [Claim(1, true)], s4, b, Busy(op + op, Sending(1), op + op + p.limits.send));
    evs := a + [Claim(1, true)] + b;
  }

  lemma SlowLoad(p: Params, t: int) returns (evs: seq<Event>)
    ensures var l := p.limits;
            Leads(p, Busy(t, Loading, t + l.op), evs, Busy(t + l.op, Sending(1), t + l.op + l.send))
  {
    hide Leads;
    evs := Linger(p, t, Loading, JobLoaded(1, true), Sending(1));
  }

  /** Worker 1 has used its whole budget; the reconciler and worker 2 move before it does. */
  lemma Overtake(p: Params, t: int) returns (evs: seq<Event>, s': State)
    requires p.batch >= 1 && t + p.skew > p.threshold
    ensures Leads(p, Busy(t, Writing(Failed), t), evs, s')
    ensures !Exclusive(s')
  {
    var s1 := Busy(t, Writing(Failed), t);
    var one := s1.workers[1];
    var cutoff := t + p.skew - p.threshold;
    assert Stale(s1, 0, cutoff);
    assert StaleRows(s1, cutoff) == {0};
    var requeue := Requeue(cutoff, {0});
    var row := map[0 := Row(Emitted, None)];
    var s2 := State(t, row, map[], map[1 := one]);
    assert Apply(p, s1, requeue) == s2;
    var s3 := State(t, row, map[0 := 2], map[1 := one, 2 := Selecting(0, t, t + p.limits.op)]);
    assert Apply(p, s2, Select(2, 0)) == s3;
    s' := Apply(p, s3, Claim(2, true));
    assert s'.workers[1] == one && s'.workers[2].Delivering? && s'.workers[2].exec == 0;
    OneStep(p, s1, requeue);
    OneStep(p, s2, Select(2, 0));
    OneStep(p, s3, Claim(2, true));
    Chain(p, s1, [requeue], s2, [Select(2, 0)], s3);
    Chain(p, s1, [requeue] + [Select(2, 0)], s3, [Claim(2, true)], s');
    evs := [requeue] + [Select(2, 0)] + [Claim(2, true)];
  }

  lemma TwoDeliveries(p: Params) returns (evs: seq<Event>)
    requires p.batch >= 1 && !Wide(p)
    ensures TimelyRun(p, INIT, evs) && ValidRun(p, INIT, evs)
    ensures !Exclusive(Final(p, INIT, evs))
  {
    var l := p.limits;
    var t1, t2 := l.op + l.op, Hold(l);
    var a := SlowClaim(p);
    var b := Slowest(p, t1, 1);
    var c := Tick(l.op);
    OneStep(p, Busy(t2 - l.op, Writing(Failed), t2), c);
    var d, s' := Overtake(p, t2);
    Chain(p, INIT, a, Busy(t1, Sending(1), t1 + l.send), b, Busy(t2 - l.op, Writing(Failed), t2));
    Chain(p, INIT, a + b, Busy(t2 - l.op, Writing(Failed), t2), [c], Busy(t2, Writing(Failed), t2));
    Chain(p, INIT, a + b + [c], Busy(t2, Writing(Failed), t2), d, s');
    evs := a + b + [c] + d;
  }

  ghost predicate AlwaysExclusive(p: Params) {
    forall evs | TimelyRun(p, INIT, evs) :: ValidRun(p, INIT, evs) && Exclusive(Final(p, INIT, evs))
  }

  /**
   Over every run, with any number of workers, crashes and reconciler cycles, no two workers are
   ever inside a delivery of the same execution, if and only if the requeue threshold is at least
   the worst-case time a delivery can hold its claim plus the clock skew.
   */
  lemma ExclusionIsExact(p: Params)
    requires p.batch >= 1
    ensures AlwaysExclusive(p) <==> Wide(p)
  {
    if Wide(p) {
      forall evs | TimelyRun(p, INIT, evs) ensures ValidRun(p, INIT, evs) && Exclusive(Final(p, INIT, evs)) {
        TimedRun(p, INIT, evs);
      }
    } else {
      var evs := TwoDeliveries(p);
    }
  }

  /** Whoever is delivering owns a row that is in progress under exactly its own claim. */
  lemma DeliveriesOwnTheirRows(p: Params, evs: seq<Event>, w: WorkerId)
    requires Wide(p) && TimelyRun(p, INIT, evs)
    ensures ValidRun(p, INIT, evs)
    ensures At(Final(p, INIT, evs), w) ==>
              var s := Final(p, INIT, evs);
              s.workers[w].exec in s.rows && s.rows[s.workers[w].exec] == Row(InProgress, Some(s.workers[w].claimedAt))
  {
    TimedRun(p, INIT, evs);
    var s := Final(p, INIT, evs);
    if At(s, w) {
      assert OnTime(p, s, w);
    }
  }
}
