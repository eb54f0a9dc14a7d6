/**
 The delivery of one claimed execution: the retry loop of internal/dispatcher/dispatcher.go.

 `Phase` and `AfterRecord` describe the loop as an automaton.  `Dispatcher.Dispatch` is the loop
 itself, proved to perform exactly the actions of that automaton.  The module `Lifecycle` runs many
 workers through the same phases against the executions table, and `DeliveryRefinement` proves that
 each of their deliveries does what the automaton does.
 */
module Dispatch {
  import opened Common

  const MAX_ATTEMPTS: nat := 4
  const MAX_SEND: nat := 60 * SECOND
  const BACKOFF: seq<nat> := [0, 30 * SECOND, 120 * SECOND, 600 * SECOND]

  function Sum(s: seq<nat>): nat {
    if s == [] then 0 else Sum(s[..|s| - 1]) + s[|s| - 1]
  }

  /** Every attempt at its timeout limit plus every backoff: 16 minutes and 30 seconds. */
  method MaxRetryDuration() returns (total: nat)
    ensures total == MAX_ATTEMPTS * MAX_SEND + Sum(BACKOFF)
    ensures total == 990 * SECOND
  {
    total := MAX_ATTEMPTS * MAX_SEND;
    for i := 0 to |BACKOFF|
      invariant total == MAX_ATTEMPTS * MAX_SEND + Sum(BACKOFF[..i])
    {
      assert BACKOFF[..i + 1][..i] == BACKOFF[..i];
      total := total + BACKOFF[i];
    }
    assert BACKOFF[..|BACKOFF|] == BACKOFF;
    BackoffTotal();
  }

  lemma BackoffTotal()
    ensures Sum(BACKOFF) == 750 * SECOND
  {
    var two, three := [0, 30 * SECOND], [0, 30 * SECOND, 120 * SECOND];
    assert BACKOFF[..3] == three && three[..2] == two && two[..1] == [0] && [0][..0] == [];
    assert Sum([0]) == Sum([]) + 0;
    assert Sum(two) == 30 * SECOND;
    assert Sum(three) == 150 * SECOND;
  }

  datatype WebhookResult = WebhookResult(statusCode: int, failed: bool) {
    predicate IsSuccess() {
      !failed && 200 <= statusCode < 300
    }

    predicate IsRetryable() {
      failed || statusCode == 429 || statusCode >= 500
    }
  }

  datatype Terminal = Delivered | Failed

  // ---------- the automaton ----------

  /** Where a worker is inside one delivery. */
  datatype Phase =
    | Loading
    | Waiting(attempt: nat)
    | Sending(attempt: nat)
    | Recording(attempt: nat, result: WebhookResult)
    | Writing(status: Terminal)
  {
    predicate Valid() {
      match this
      case Loading => true
      case Waiting(n) => 2 <= n <= MAX_ATTEMPTS
      case Sending(n) => 1 <= n <= MAX_ATTEMPTS
      case Recording(n, _) => 1 <= n <= MAX_ATTEMPTS
      case Writing(_) => true
    }

    /** An upper bound on the number of phases still to come; the loop's termination measure. */
    function Rank(): nat
      requires Valid()
    {
      match this
      case Loading => 15
      case Waiting(n) => 3 * (MAX_ATTEMPTS - n) + 3
      case Sending(n) => 3 * (MAX_ATTEMPTS - n) + 2
      case Recording(n, _) => 3 * (MAX_ATTEMPTS - n) + 1
      case Writing(_) => 0
    }
  }

  /** The decision taken once attempt `n` has been recorded. */
  function AfterRecord(n: nat, r: WebhookResult): Phase {
    if r.IsSuccess() then Writing(Delivered)
    else if r.IsRetryable() && n < MAX_ATTEMPTS then Waiting(n + 1)
    else Writing(Failed)
  }

  // ---------- time budgets ----------

  /** `op` bounds one database operation, `send` one webhook attempt. */
  datatype Limits = Limits(op: nat, send: nat)

  /** The longest a worker stays in a phase. */
  function Limit(l: Limits, ph: Phase): nat
    requires ph.Valid()
  {
    match ph
    case Loading => l.op
    case Waiting(n) => BACKOFF[n - 1]
    case Sending(_) => l.send
    case Recording(_, _) => l.op
    case Writing(_) => l.op
  }

  /** The longest time from the end of recording attempt `n` to the end of the delivery. */
  function Tail(l: Limits, n: nat): nat
    requires n <= MAX_ATTEMPTS
    decreases MAX_ATTEMPTS - n
  {
    if n == MAX_ATTEMPTS then l.op
    else BACKOFF[n] + l.send + l.op + Tail(l, n + 1)
  }

  /** The longest time from the end of phase `ph` to the end of the delivery. */
  function Rest(l: Limits, ph: Phase): nat
    requires ph.Valid()
  {
    match ph
    case Loading => l.send + l.op + Tail(l, 1)
    case Waiting(n) => l.send + l.op + Tail(l, n)
    case Sending(n) => l.op + Tail(l, n)
    case Recording(n, _) => Tail(l, n)
    case Writing(_) => 0
  }

  /** The longest time between the start of the claiming transaction and the end of the delivery. */
  function Hold(l: Limits): nat {
    l.op + l.op + Rest(l, Loading)
  }

  lemma HoldClosedForm(l: Limits)
    ensures Hold(l) == 7 * l.op + 4 * l.send + 750 * SECOND
  {
    assert Tail(l, 3) == BACKOFF[3] + l.send + l.op + Tail(l, 4);
    assert Tail(l, 2) == BACKOFF[2] + l.send + l.op + Tail(l, 3);
    assert Tail(l, 1) == BACKOFF[1] + l.send + l.op + Tail(l, 2);
  }

  /** Recording never spends more than what the budget reserves for the rest of the delivery. */
  lemma AfterRecordWithinBudget(l: Limits, n: nat, r: WebhookResult)
    requires 1 <= n <= MAX_ATTEMPTS
    ensures AfterRecord(n, r).Valid()
    ensures Limit(l, AfterRecord(n, r)) + Rest(l, AfterRecord(n, r)) <= Rest(l, Recording(n, r))
  {
  }

  // ---------- the observable actions of one delivery ----------

  datatype JobLookup = LookupFailed | NoUrl | Found

  datatype StoreReply = Accepted | Denied | StoreError

  /**
   What a delivery meets: the job row, the breaker's answer, the result of each attempt, whether
   the context is cancelled during the wait before attempt n, and the store's terminal reply.
   */
  datatype Environment = Environment(
    job: JobLookup,
    circuitAllows: bool,
    result: nat -> WebhookResult,
    cancelled: nat -> bool,
    reply: StoreReply)

  datatype Action =
    | Loaded
    | Waited(attempt: nat, duration: nat)
    | Sent(attempt: nat, result: WebhookResult)
    | Recorded(attempt: nat)
    | Wrote(status: Terminal, reply: StoreReply)
    | ToldBreaker(success: bool)

  datatype Outcome = LookupError | NoWebhook | Deferred | Cancelled | Settled | AlreadyTerminal | WriteError

  datatype Next = Go(phase: Phase) | End(outcome: Outcome)

  /** What a worker does in phase `ph`, and where it goes. */
  function Step(breaker: bool, env: Environment, ph: Phase): (seq<Action>, Next)
    requires ph.Valid()
  {
    match ph
    case Loading =>
      ([Loaded],
       if env.job.LookupFailed? then End(LookupError)
       else if env.job.NoUrl? then End(NoWebhook)
       else if breaker && !env.circuitAllows then End(Deferred)
       else Go(Sending(1)))
    case Waiting(n) =>
      if env.cancelled(n) then ([], End(Cancelled)) else ([Waited(n, BACKOFF[n - 1])], Go(Sending(n)))
    case Sending(n) => ([Sent(n, env.result(n))], Go(Recording(n, env.result(n))))
    case Recording(n, r) => ([Recorded(n)], Go(AfterRecord(n, r)))
    case Writing(t) =>
      ([Wrote(t, env.reply)] + (if breaker && env.reply == Accepted then [ToldBreaker(t == Delivered)] else []),
       End(match env.reply case Accepted => Settled case Denied => AlreadyTerminal case StoreError => WriteError))
  }

  /** The actions and outcome of a delivery that stands in phase `ph`. */
  function Follow(breaker: bool, env: Environment, ph: Phase): (seq<Action>, Outcome)
    requires ph.Valid()
    decreases ph.Rank()
  {
    var (actions, next) := Step(breaker, env, ph);
    match next
    case End(outcome) => (actions, outcome)
    case Go(ph') =>
      var (later, outcome) := Follow(breaker, env, ph');
      (actions + later, outcome)
  }

  class Dispatcher {
    var trace: seq<Action>  // everything this dispatcher did to the sender, the store and the breaker
    const hasBreaker: bool

    constructor (hasBreaker: bool)
      ensures trace == [] && this.hasBreaker == hasBreaker
    {
      this.hasBreaker := hasBreaker;
      trace := [];
    }

    method Dispatch(env: Environment) returns (outcome: Outcome)
      modifies this
      ensures trace == old(trace) + Follow(hasBreaker, env, Loading).0
      ensures outcome == Follow(hasBreaker, env, Loading).1
    {
      hide Follow;
      ghost var all := Follow(hasBreaker, env, Loading);
      ghost var goal := (trace + all.0, all.1);
      if Step(hasBreaker, env, Loading).1.End? {
        Stop(hasBreaker, env, trace, Loading, goal);
      } else {
        StepOver(hasBreaker, env, trace, Loading, goal);
      }
      trace := trace + [Loaded];
      if env.job.LookupFailed? {
        return LookupError;
      }
      if env.job.NoUrl? {
        return NoWebhook;
      }
      if hasBreaker && !env.circuitAllows {
        return Deferred;
      }

      var success, giveUp, attempt := false, false, 1;
      while attempt <= MAX_ATTEMPTS && !success && !giveUp
        invariant 1 <= attempt <= MAX_ATTEMPTS + 1
        invariant Reaches(hasBreaker, env, trace, LoopPhase(attempt, success, giveUp), goal)
        decreases MAX_ATTEMPTS + 1 - attempt, !success, !giveUp
      {
        if attempt > 1 {
          if env.cancelled(attempt) {
            Stop(hasBreaker, env, trace, Waiting(attempt), goal);
            return Cancelled;
          }
          var idx := attempt - 1;
          if idx >= |BACKOFF| {
            idx := |BACKOFF| - 1;
          }
          StepOver(hasBreaker, env, trace, Waiting(attempt), goal);
          trace := trace + [Waited(attempt, BACKOFF[idx])];
        }
        var result := env.result(attempt);
        StepOver(hasBreaker, env, trace, Sending(attempt), goal);
        trace := trace + [Sent(attempt, result)];
        StepOver(hasBreaker, env, trace, Recording(attempt, result), goal);
        trace := trace + [Recorded(attempt)];
        if result.IsSuccess() {
          success := true;
        } else if !result.IsRetryable() {
          giveUp := true;
        } else {
          attempt := attempt + 1;
        }
      }

      var status := if success then Delivered else Failed;
      Stop(hasBreaker, env, trace, Writing(status), goal);
      outcome := Settle(env, status);
    }

    /** The terminal write, and the breaker's verdict once the store has accepted it. */
    method Settle(env: Environment, status: Terminal) returns (outcome: Outcome)
      modifies this
      ensures trace == old(trace) + Step(hasBreaker, env, Writing(status)).0
      ensures End(outcome) == Step(hasBreaker, env, Writing(status)).1
    {
      trace := trace + [Wrote(status, env.reply)];
      match env.reply
      case Accepted =>
        if hasBreaker {
          trace := trace + [ToldBreaker(status == Delivered)];
        }
        return Settled;
      case Denied => return AlreadyTerminal;
      case StoreError => return WriteError;
    }
  }

  /** The automaton's phase at the head of the retry loop. */
  function LoopPhase(attempt: nat, success: bool, giveUp: bool): Phase {
    if success then Writing(Delivered)
    else if giveUp || attempt > MAX_ATTEMPTS then Writing(Failed)
    else if attempt <= 1 then Sending(1)
    else Waiting(attempt)
  }

  /** The trace `tr`, continued from phase `ph`, ends as `goal`. */
  ghost predicate Reaches(breaker: bool, env: Environment, tr: seq<Action>, ph: Phase, goal: (seq<Action>, Outcome)) {
    ph.Valid() && tr + Follow(breaker, env, ph).0 == goal.0 && Follow(breaker, env, ph).1 == goal.1
  }

  lemma StepOver(breaker: bool, env: Environment, tr: seq<Action>, ph: Phase, goal: (seq<Action>, Outcome))
    requires Reaches(breaker, env, tr, ph, goal)
    requires Step(breaker, env, ph).1.Go?
    ensures Reaches(breaker, env, tr + Step(breaker, env, ph).0, Step(breaker, env, ph).1.phase, goal)
  {
    var (actions, next) := Step(breaker, env, ph);
    var later := Follow(breaker, env, next.phase).0;
    assert tr + (actions + later) == tr + actions + later;
  }

  lemma Stop(breaker: bool, env: Environment, tr: seq<Action>, ph: Phase, goal: (seq<Action>, Outcome))
    requires Reaches(breaker, env, tr, ph, goal)
    requires Step(breaker, env, ph).1.End?
    ensures goal == (tr + Step(breaker, env, ph).0, Step(breaker, env, ph).1.outcome)
  {
  }

  // ---------- what every delivery does ----------

  function Sends(tr: seq<Action>): seq<Action> {
    if tr == [] then [] else (if tr[0].Sent? then [tr[0]] else []) + Sends(tr[1..])
  }

  function Writes(tr: seq<Action>): seq<Action> {
    if tr == [] then [] else (if tr[0].Wrote? then [tr[0]] else []) + Writes(tr[1..])
  }

  function BreakerCalls(tr: seq<Action>): seq<Action> {
    if tr == [] then [] else (if tr[0].ToldBreaker? then [tr[0]] else []) + BreakerCalls(tr[1..])
  }

  function WaitTotal(tr: seq<Action>): nat {
    if tr == [] then 0 else (if tr[0].Waited? then tr[0].duration else 0) + WaitTotal(tr[1..])
  }

  /** The longest the actions of a trace can take. */
  function Cost(l: Limits, tr: seq<Action>): nat {
    if tr == [] then 0 else ActionCost(l, tr[0]) + Cost(l, tr[1..])
  }

  function ActionCost(l: Limits, a: Action): nat {
    match a
    case Loaded => l.op
    case Waited(_, d) => d
    case Sent(_, _) => l.send
    case Recorded(_) => l.op
    case Wrote(_, _) => l.op
    case ToldBreaker(_) => 0
  }

  /** A transport error, too many requests, or a server error. */
  predicate Retries(env: Environment, n: nat) {
    env.result(n).failed || env.result(n).statusCode == 429 || env.result(n).statusCode >= 500
  }

  predicate Succeeds(env: Environment, n: nat) {
    !env.result(n).failed && 200 <= env.result(n).statusCode < 300
  }

  /** The contract of a delivery about to make attempt `n`; `k` is its last attempt. */
  ghost predicate Conforms(breaker: bool, env: Environment, n: nat, tr: seq<Action>, outcome: Outcome)
    requires 1 <= n <= MAX_ATTEMPTS
  {
    var sends := Sends(tr);
    var k := n + |sends| - 1;
    && n <= k <= MAX_ATTEMPTS
    && (forall i :: 0 <= i < |sends| ==> sends[i] == Sent(n + i, env.result(n + i)))
    && (forall m :: n <= m < k ==> Retries(env, m))
    && (forall m :: n < m <= k ==> !env.cancelled(m))
    && (outcome == Cancelled <==> k < MAX_ATTEMPTS && Retries(env, k) && env.cancelled(k + 1))
    && (outcome != Cancelled ==> k == MAX_ATTEMPTS || !Retries(env, k))
    && Writes(tr) == (if outcome == Cancelled then []
                      else [Wrote(if Succeeds(env, k) then Delivered else Failed, env.reply)])
    && BreakerCalls(tr) == (if outcome != Cancelled && breaker && env.reply == Accepted
                            then [ToldBreaker(Succeeds(env, k))] else [])
  }

  lemma {:induction false} SendingConforms(breaker: bool, env: Environment, n: nat)
    requires 1 <= n <= MAX_ATTEMPTS
    ensures Conforms(breaker, env, n, Follow(breaker, env, Sending(n)).0, Follow(breaker, env, Sending(n)).1)
    decreases MAX_ATTEMPTS - n
  {
    hide Follow, Sends, Writes, BreakerCalls;
    AttemptActions(breaker, env, n);
    var next := AfterRecord(n, env.result(n));
    if next.Writing? {
      WritingConforms(breaker, env, next.status);
    } else {
      RetryActions(breaker, env, n + 1);
      if !env.cancelled(n + 1) {
        SendingConforms(breaker, env, n + 1);
        var (tr, outcome) := Follow(breaker, env, Sending(n));
        RetryConforms(breaker, env, n, tr, Follow(breaker, env, Sending(n + 1)).0, outcome);
      }
    }
  }

  lemma AttemptActions(breaker: bool, env: Environment, n: nat)
    requires 1 <= n <= MAX_ATTEMPTS
    ensures AfterRecord(n, env.result(n)).Valid()
    ensures var (tr, outcome) := Follow(breaker, env, Sending(n));
            var (rest, outcome') := Follow(breaker, env, AfterRecord(n, env.result(n)));
            && Sends(tr) == [Sent(n, env.result(n))] + Sends(rest)
            && Writes(tr) == Writes(rest) && BreakerCalls(tr) == BreakerCalls(rest) && outcome == outcome'
  {
    hide Follow, Sends, Writes, BreakerCalls;
    var r := env.result(n);
    Unfold(breaker, env, Sending(n));
    Unfold(breaker, env, Recording(n, r));
    var rest := Follow(breaker, env, AfterRecord(n, r)).0;
    Project(Recorded(n), rest);
    Project(Sent(n, r), [Recorded(n)] + rest);
  }

  lemma RetryActions(breaker: bool, env: Environment, n: nat)
    requires 2 <= n <= MAX_ATTEMPTS
    ensures var (tr, outcome) := Follow(breaker, env, Waiting(n));
            var (rest, outcome') := if env.cancelled(n) then ([], Cancelled) else Follow(breaker, env, Sending(n));
            && Sends(tr) == Sends(rest) && Writes(tr) == Writes(rest)
            && BreakerCalls(tr) == BreakerCalls(rest) && outcome == outcome'
    ensures Sends([]) == [] && Writes([]) == [] && BreakerCalls([]) == []
  {
    Unfold(breaker, env, Waiting(n));
    if !env.cancelled(n) {
      Project(Waited(n, BACKOFF[n - 1]), Follow(breaker, env, Sending(n)).0);
    }
  }

  /** A retryable attempt in front of a conforming delivery conforms. */
  lemma RetryConforms(breaker: bool, env: Environment, n: nat, tr: seq<Action>, later: seq<Action>, outcome: Outcome)
    requires 1 <= n < MAX_ATTEMPTS && Retries(env, n) && !env.cancelled(n + 1)
    requires Conforms(breaker, env, n + 1, later, outcome)
    requires Sends(tr) == [Sent(n, env.result(n))] + Sends(later)
    requires Writes(tr) == Writes(later) && BreakerCalls(tr) == BreakerCalls(later)
    ensures Conforms(breaker, env, n, tr, outcome)
  {
    hide Sends, Writes, BreakerCalls;
    Renumber(env, n, Sends(later));
  }

  lemma Renumber(env: Environment, n: nat, later: seq<Action>)
    requires forall i :: 0 <= i < |later| ==> later[i] == Sent(n + 1 + i, env.result(n + 1 + i))
    ensures var all := [Sent(n, env.result(n))] + later;
            forall i :: 0 <= i < |all| ==> all[i] == Sent(n + i, env.result(n + i))
  {
    var all := [Sent(n, env.result(n))] + later;
    forall i | 1 <= i < |all| ensures all[i] == Sent(n + i, env.result(n + i)) {
      assert later[i - 1] == Sent(n + 1 + (i - 1), env.result(n + 1 + (i - 1)));
    }
  }

  /** One unfolding of `Follow`. */
  lemma Unfold(breaker: bool, env: Environment, ph: Phase)
    requires ph.Valid()
    ensures var (actions, next) := Step(breaker, env, ph);
            Follow(breaker, env, ph) ==
            if next.End? then (actions, next.outcome)
            else (actions + Follow(breaker, env, next.phase).0, Follow(breaker, env, next.phase).1)
  {
  }

  lemma WritingConforms(breaker: bool, env: Environment, t: Terminal)
    ensures var tr := Follow(breaker, env, Writing(t)).0;
            && Sends(tr) == []
            && Writes(tr) == [Wrote(t, env.reply)]
            && BreakerCalls(tr) == if breaker && env.reply == Accepted then [ToldBreaker(t == Delivered)] else []
    ensures Follow(breaker, env, Writing(t)).1 != Cancelled
  {
    var told := if breaker && env.reply == Accepted then [ToldBreaker(t == Delivered)] else [];
    Project(Wrote(t, env.reply), told);
    if told != [] {
      Project(told[0], []);
    }
  }

  lemma Project(a: Action, rest: seq<Action>)
    ensures Sends([a] + rest) == (if a.Sent? then [a] else []) + Sends(rest)
    ensures Writes([a] + rest) == (if a.Wrote? then [a] else []) + Writes(rest)
    ensures BreakerCalls([a] + rest) == (if a.ToldBreaker? then [a] else []) + BreakerCalls(rest)
  {
    assert ([a] + rest)[1..] == rest;
  }

  /** Seen through its sends, its write and its breaker call, every usable delivery conforms. */
  lemma DeliveryConforms(breaker: bool, env: Environment)
    requires env.job == Found && !(breaker && !env.circuitAllows)
    ensures Conforms(breaker, env, 1, Follow(breaker, env, Loading).0, Follow(breaker, env, Loading).1)
  {
    hide Follow, Conforms, Sends, Writes, BreakerCalls;
    Unfold(breaker, env, Loading);
    Project(Loaded, Follow(breaker, env, Sending(1)).0);
    SendingConforms(breaker, env, 1);
    var (tr, outcome) := Follow(breaker, env, Loading);
    SameProjections(breaker, env, Follow(breaker, env, Sending(1)).0, tr, outcome);
  }

  lemma SameProjections(breaker: bool, env: Environment, tr: seq<Action>, tr': seq<Action>, outcome: Outcome)
    requires Conforms(breaker, env, 1, tr, outcome)
    requires Sends(tr) == Sends(tr') && Writes(tr) == Writes(tr') && BreakerCalls(tr) == BreakerCalls(tr')
    ensures Conforms(breaker, env, 1, tr', outcome)
  {
    hide Sends, Writes, BreakerCalls;
  }

  // ---------- the whole trace ----------

  /** The wait before an attempt: half a minute, two minutes, ten minutes. */
  function Pause(attempt: nat): nat {
    if attempt == 2 then 30 * SECOND else if attempt == 3 then 120 * SECOND else 600 * SECOND
  }

  /** Attempts n to k: each is sent and recorded, and the next one waits for its pause. */
  function Attempts(env: Environment, n: nat, k: nat): seq<Action>
    requires n <= k
    decreases k - n
  {
    [Sent(n, env.result(n)), Recorded(n)] +
    (if n == k then [] else [Waited(n + 1, Pause(n + 1))] + Attempts(env, n + 1, k))
  }

  /** What follows the last attempt k when nothing cancels it. */
  function Ending(breaker: bool, env: Environment, k: nat): seq<Action> {
    [Wrote(if Succeeds(env, k) then Delivered else Failed, env.reply)] +
    (if breaker && env.reply == Accepted then [ToldBreaker(Succeeds(env, k))] else [])
  }

  /** Attempt k is the last one from n on: the first that is not retried, or not waited for, or the fourth. */
  predicate Last(env: Environment, n: nat, k: nat) {
    && n <= k <= MAX_ATTEMPTS
    && (forall m :: n <= m < k ==> Retries(env, m) && !env.cancelled(m + 1))
    && (k == MAX_ATTEMPTS || !Retries(env, k) || env.cancelled(k + 1))
  }

  /** The whole trace and the outcome of a delivery whose last attempt, from n on, is k. */
  ghost predicate Exactly(breaker: bool, env: Environment, n: nat, k: nat, tr: seq<Action>, outcome: Outcome)
    requires n <= k
  {
    if k < MAX_ATTEMPTS && Retries(env, k) then tr == Attempts(env, n, k) && outcome == Cancelled
    else
      && tr == Attempts(env, n, k) + Ending(breaker, env, k)
      && (env.reply == Accepted ==> outcome == Settled)
      && (env.reply == Denied ==> outcome == AlreadyTerminal)
      && (env.reply == StoreError ==> outcome == WriteError)
  }

  lemma {:induction false} ExactFrom(breaker: bool, env: Environment, n: nat) returns (k: nat)
    requires 1 <= n <= MAX_ATTEMPTS
    ensures Last(env, n, k)
    ensures Exactly(breaker, env, n, k, Follow(breaker, env, Sending(n)).0, Follow(breaker, env, Sending(n)).1)
    decreases MAX_ATTEMPTS - n
  {
    hide Follow;
    var r := env.result(n);
    Unfold(breaker, env, Sending(n));
    Unfold(breaker, env, Recording(n, r));
    var next := AfterRecord(n, r);
    Unfold(breaker, env, next);
    var sent := [Sent(n, r), Recorded(n)];
    assert [Sent(n, r)] + ([Recorded(n)] + Follow(breaker, env, next).0) == sent + Follow(breaker, env, next).0;
    k := n;
    if next.Writing? {
      assert Attempts(env, n, n) == sent;
    } else if env.cancelled(n + 1) {
      assert Attempts(env, n, n) == sent;
    } else {
      k := ExactFrom(breaker, env, n + 1);
      LastFromNext(env, n, k);
      RetryIsExact(breaker, env, n, k, Follow(breaker, env, Sending(n + 1)).0, Follow(breaker, env, Sending(n + 1)).1);
    }
  }

  lemma LastFromNext(env: Environment, n: nat, k: nat)
    requires Last(env, n + 1, k) && Retries(env, n) && !env.cancelled(n + 1)
    ensures Last(env, n, k)
  {
    forall m | n <= m < k ensures Retries(env, m) && !env.cancelled(m + 1) {
    }
  }

  lemma RetryIsExact(breaker: bool, env: Environment, n: nat, k: nat, later: seq<Action>, outcome: Outcome)
    requires 1 <= n < k <= MAX_ATTEMPTS && Exactly(breaker, env, n + 1, k, later, outcome)
    ensures BACKOFF[n] == Pause(n + 1)
    ensures Exactly(breaker, env, n, k,
                    [Sent(n, env.result(n)), Recorded(n)] + ([Waited(n + 1, BACKOFF[n])] + later), outcome)
  {
    hide Ending;
    var sent, wait := [Sent(n, env.result(n)), Recorded(n)], [Waited(n + 1, Pause(n + 1))];
    var rest := Attempts(env, n + 1, k);
    assert Attempts(env, n, k) == sent + (wait + rest);
    assert sent + (wait + (rest + Ending(breaker, env, k))) == sent + (wait + rest) + Ending(breaker, env, k);
  }

  /** There is only one last attempt. */
  lemma LastIsUnique(env: Environment, n: nat, k: nat, k': nat)
    requires Last(env, n, k) && Last(env, n, k')
    ensures k == k'
  {
    assert k < k' ==> Retries(env, k);
    assert k' < k ==> Retries(env, k');
  }

  /**
   The whole behaviour of a delivery, in terms of what it meets.  A job that cannot be used and an
   open circuit end it at once, each with its own outcome.  Otherwise it makes attempts 1..k: an
   error, 429 or a status of 500 and more is followed by the next attempt, after 30, 120 and 600
   seconds, unless that wait is cancelled; anything else, and the fourth attempt, is the last.  Then
   one write says delivered exactly for an answer in 200..299, the breaker hears the same if and
   only if the store accepted the write, and the outcome tells the three replies apart.
   */
  lemma DispatchContract(breaker: bool, env: Environment)
    ensures var (tr, outcome) := Follow(breaker, env, Loading);
            if env.job == LookupFailed then tr == [Loaded] && outcome == LookupError
            else if env.job == NoUrl then tr == [Loaded] && outcome == NoWebhook
            else if breaker && !env.circuitAllows then tr == [Loaded] && outcome == Deferred
            else exists k :: Last(env, 1, k) && tr[..1] == [Loaded] && Exactly(breaker, env, 1, k, tr[1..], outcome)
  {
    hide Follow, Exactly, Last;
    Unfold(breaker, env, Loading);
    if env.job == Found && !(breaker && !env.circuitAllows) {
      var k := ExactFrom(breaker, env, 1);
      var (tr, rest) := (Follow(breaker, env, Loading).0, Follow(breaker, env, Sending(1)).0);
      assert tr == [Loaded] + rest && tr[..1] == [Loaded] && tr[1..] == rest;
    }
  }

  /** One phase stays within its own limit and leaves the rest of the budget to the next one. */
  lemma StepCost(l: Limits, breaker: bool, env: Environment, ph: Phase)
    requires ph.Valid()
    ensures Cost(l, Step(breaker, env, ph).0) <= Limit(l, ph)
    ensures WaitTotal(Step(breaker, env, ph).0) <= Limit(Limits(0, 0), ph)
    ensures var next := Step(breaker, env, ph).1;
            next.Go? ==> Limit(l, next.phase) + Rest(l, next.phase) <= Rest(l, ph)
  {
    var actions := Step(breaker, env, ph).0;
    if |actions| > 0 {
      HeadCost(l, actions[0], actions[1..]);
      if |actions| > 1 {
        HeadCost(l, actions[1], []);
      }
    }
    if ph.Recording? {
      AfterRecordWithinBudget(l, ph.attempt, ph.result);
    }
  }

  lemma {:induction false} FollowCost(l: Limits, breaker: bool, env: Environment, ph: Phase)
    requires ph.Valid()
    ensures Cost(l, Follow(breaker, env, ph).0) <= Limit(l, ph) + Rest(l, ph)
    ensures WaitTotal(Follow(breaker, env, ph).0) <= Limit(Limits(0, 0), ph) + Rest(Limits(0, 0), ph)
    decreases ph.Rank()
  {
    hide Follow, Limit, Rest, Cost, WaitTotal;
    Unfold(breaker, env, ph);
    StepCost(l, breaker, env, ph);
    StepCost(Limits(0, 0), breaker, env, ph);
    var (actions, next) := Step(breaker, env, ph);
    if next.Go? {
      FollowCost(l, breaker, env, next.phase);
      CostConcat(l, actions, Follow(breaker, env, next.phase).0);
    }
  }

  lemma {:induction false} CostConcat(l: Limits, a: seq<Action>, b: seq<Action>)
    ensures Cost(l, a + b) == Cost(l, a) + Cost(l, b)
    ensures WaitTotal(a + b) == WaitTotal(a) + WaitTotal(b)
  {
    if a == [] {
      assert a + b == b;
    } else {
      CostConcat(l, a[1..], b);
      assert (a + b)[1..] == a[1..] + b;
    }
  }

  lemma HeadCost(l: Limits, a: Action, rest: seq<Action>)
    ensures Cost(l, [a] + rest) == ActionCost(l, a) + Cost(l, rest)
    ensures WaitTotal([a] + rest) == (if a.Waited? then a.duration else 0) + WaitTotal(rest)
  {
    assert ([a] + rest)[1..] == rest;
  }

  /** Claiming and the whole loop fit in the window that the requeue threshold is compared with. */
  lemma DispatchWithinHold(l: Limits, breaker: bool, env: Environment)
    ensures l.op + Cost(l, Follow(breaker, env, Loading).0) <= Hold(l)
    ensures WaitTotal(Follow(breaker, env, Loading).0) <= Sum(BACKOFF)
  {
    FollowCost(l, breaker, env, Loading);
    HoldClosedForm(Limits(0, 0));
    BackoffTotal();
  }
}
